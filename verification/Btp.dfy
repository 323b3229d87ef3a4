/** Network sections and how they are built and reloaded (btp/).

    Hash functions, the encoding that goes into them and proof contexts are parameters of a network type's module. */
module Btp {
  import opened Votes
  import opened Merkle
  import opened Integers

  // The state of the networks, as the transition leaves it.

  datatype NetworkView = NetworkView(ntid: int, nextSN: int, changed: bool, prev: Option<Bytes>, last: Option<Bytes>)

  datatype TypeView = TypeView(uid: nat, context: Bytes)

  datatype StateView = StateView(networks: map<int, NetworkView>, types: map<int, TypeView>)

  datatype Format = Format(nid: int, updateNumber: int, prev: Option<Bytes>, count: int, root: Option<Bytes>)

  datatype TypeFormat = TypeFormat(contextHash: Bytes, root: Option<Bytes>)

  /** Bytes that are no proof context have no context hash. */
  datatype Module = Module(hash: Bytes -> Bytes, sectionHash: Format -> Bytes, typeHash: TypeFormat -> Bytes,
                           contextHash: Bytes -> Option<Bytes>)

  ghost predicate Sized(mod: Module) { forall x :: |mod.hash(x)| == HASH_LEN }

  // Hashes one after the other.

  function Cat(hs: seq<Bytes>): (r: Bytes) { if hs == [] then [] else Cat(hs[..|hs| - 1]) + hs[|hs| - 1] }

  function Cell(bytes: Bytes, i: nat): (r: Bytes)
    requires (i + 1) * HASH_LEN <= |bytes|
  {
    bytes[i * HASH_LEN..(i + 1) * HASH_LEN]
  }

  /** What Len and Get show of such bytes. */
  function Row(bytes: Bytes): (r: seq<Bytes>)
    ensures |r| == |bytes| / HASH_LEN
  {
    seq(|bytes| / HASH_LEN, i requires 0 <= i < |bytes| / HASH_LEN => Cell(bytes, i))
  }

  lemma {:induction false} CatRow(hs: seq<Bytes>)
    requires Cells(hs)
    ensures |Cat(hs)| == |hs| * HASH_LEN && Row(Cat(hs)) == hs
  {
    if hs != [] {
      var front := hs[..|hs| - 1];
      CatRow(front);
      forall i | 0 <= i < |hs| ensures Cell(Cat(hs), i) == hs[i] {
        if i < |front| { assert Cell(Cat(hs), i) == Cell(Cat(front), i) == Row(Cat(front))[i]; }
      }
    }
  }

  // A network section.

  datatype Section = Section(nid: int, updateNumber: int, prev: Option<Bytes>, messages: seq<Bytes>, hashes: Bytes,
                             root: Option<Bytes>, hash: Bytes) {
    function FirstSN(): int { updateNumber / 2 }

    predicate Changed() { updateNumber % 2 == 1 }

    function Count(): nat { |hashes| / HASH_LEN }
  }

  /** The first sequence number moved up by one bit, in 64 bits, with the change flag below it. */
  function UpdateNumber(nw: NetworkView, count: nat): (r: int) {
    Int64(2 * Int64(nw.nextSN - count)) + if nw.changed then 1 else 0
  }

  function Hashes(mod: Module, msgs: seq<Bytes>): (r: seq<Bytes>)
    ensures |r| == |msgs| && forall i :: 0 <= i < |msgs| ==> r[i] == mod.hash(msgs[i])
  {
    seq(|msgs|, i requires 0 <= i < |msgs| => mod.hash(msgs[i]))
  }

  function SectionOf(nid: int, nw: NetworkView, msgs: seq<Bytes>, mod: Module): (s: Section) {
    var hashes := Cat(Hashes(mod, msgs));
    var root := MerkleRoot(mod.hash, Row(hashes));
    var update := UpdateNumber(nw, |msgs|);
    Section(nid, update, nw.last, msgs, hashes, root,
            mod.sectionHash(Format(nid, update, nw.last, |hashes| / HASH_LEN, root)))
  }

  method NewNetworkSection(nid: int, nw: NetworkView, msgs: seq<Bytes>, mod: Module) returns (s: Section)
    ensures s == SectionOf(nid, nw, msgs, mod)
    ensures s.nid == nid && s.prev == nw.last && s.messages == msgs && (s.Changed() <==> nw.changed)
    ensures s.hash == mod.sectionHash(Format(nid, s.updateNumber, nw.last, s.Count(), s.root))
  {
    HalfOfUpdate(nw, |msgs|);
    var hashes := [];
    for i := 0 to |msgs|
      invariant hashes == Cat(Hashes(mod, msgs)[..i])
    {
      assert Hashes(mod, msgs)[..i + 1][..i] == Hashes(mod, msgs)[..i];
      hashes := hashes + mod.hash(msgs[i]);
    }
    assert Hashes(mod, msgs)[..|msgs|] == Hashes(mod, msgs);
    var root := ComputeRoot(mod.hash, Row(hashes));
    var update := UpdateNumber(nw, |msgs|);
    s := Section(nid, update, nw.last, msgs, hashes, root,
                 mod.sectionHash(Format(nid, update, nw.last, |hashes| / HASH_LEN, root)));
  }

  /** Fits in 63 bits. */
  predicate Fits(n: int) { -0x4000_0000_0000_0000 <= n < 0x4000_0000_0000_0000 }

  lemma HalfOfUpdate(nw: NetworkView, count: nat)
    ensures UpdateNumber(nw, count) % 2 == (if nw.changed then 1 else 0)
    ensures UpdateNumber(nw, count) / 2 == nw.nextSN - count <==> Fits(nw.nextSN - count)
    ensures UpdateNumber(nw, count) / 2 == Int64(nw.nextSN - count) <==> Fits(Int64(nw.nextSN - count))
    ensures (UpdateNumber(nw, count) / 2 - (nw.nextSN - count)) % TWO63 == 0
  {
    hide Int64;
    var n := nw.nextSN - count;
    assert 2 * TWO63 == 0x1_0000_0000_0000_0000;
    Halved(Int64(2 * Int64(n)), Int64(n), n);
    Doubled(nw.nextSN - count);
    Doubled(Int64(nw.nextSN - count));
  }

  lemma Halved(u: int, m: int, n: int)
    requires u % 2 == 0 && (u - 2 * m) % (2 * TWO63) == 0 && (m - n) % (2 * TWO63) == 0
    ensures (u / 2 - n) % TWO63 == 0
  {
    var a, b := (u - 2 * m) / (2 * TWO63), (m - n) / (2 * TWO63);
    assert u / 2 - n == TWO63 * (a + 2 * b);
    Multiple(a + 2 * b);
  }

  lemma Multiple(a: int)
    ensures (TWO63 * a) % TWO63 == 0
  {
  }

  lemma Doubled(n: int)
    ensures Int64(2 * n) % 2 == 0
    ensures Int64(2 * n) == 2 * n <==> Fits(n)
    ensures Fits(n) ==> Int64(n) == n
  {
    assert 2 * TWO63 == 0x1_0000_0000_0000_0000;
  }

  /** What a section says of itself: as many messages as were sent, the root of their hashes, and the number of the
      first of them exactly while it fits in 63 bits. */
  lemma SectionSays(nid: int, nw: NetworkView, msgs: seq<Bytes>, mod: Module)
    requires Sized(mod)
    ensures var s := SectionOf(nid, nw, msgs, mod);
      && s.Count() == |msgs| && (s.Changed() <==> nw.changed)
      && s.root == MerkleRoot(mod.hash, Hashes(mod, msgs)) && Row(s.hashes) == Hashes(mod, msgs)
      && (s.FirstSN() == nw.nextSN - |msgs| <==> Fits(nw.nextSN - |msgs|))
  {
    CatRow(Hashes(mod, msgs));
    HalfOfUpdate(nw, |msgs|);
  }

  ghost predicate Injective(hash: Format -> Bytes) {
    forall x, y {:trigger hash(x), hash(y)} :: hash(x) == hash(y) ==> x == y
  }

  /** With hashes that do not collide, the hash of a section commits to its network, its number and flag, the section
      before it and all its messages. */
  lemma SectionBinds(nid: int, nw: NetworkView, msgs: seq<Bytes>, nid': int, nw': NetworkView, msgs': seq<Bytes>, mod: Module)
    requires Sized(mod) && Injective(mod.sectionHash)
    requires SectionOf(nid, nw, msgs, mod).hash == SectionOf(nid', nw', msgs', mod).hash
    ensures nid == nid' && nw.last == nw'.last && nw.changed == nw'.changed && |msgs| == |msgs'|
    ensures (nw.nextSN - nw'.nextSN) % TWO63 == 0
    ensures MerkleRoot(mod.hash, Hashes(mod, msgs)) == MerkleRoot(mod.hash, Hashes(mod, msgs'))
    ensures CollisionFree(mod.hash) ==> msgs == msgs'
  {
    hide UpdateNumber, MerkleRoot;
    SectionSays(nid, nw, msgs, mod);
    SectionSays(nid', nw', msgs', mod);
    SameNumber(nw, nw', |msgs|);
    if CollisionFree(mod.hash) { RootGivesMessages(mod, msgs, msgs'); }
  }

  lemma SameNumber(nw: NetworkView, nw': NetworkView, count: nat)
    requires UpdateNumber(nw, count) == UpdateNumber(nw', count)
    ensures nw.changed == nw'.changed && (nw.nextSN - nw'.nextSN) % TWO63 == 0
  {
    HalfOfUpdate(nw, count);
    HalfOfUpdate(nw', count);
    hide UpdateNumber;
    var u := UpdateNumber(nw, count) / 2;
    var a, b := (u - (nw.nextSN - count)) / TWO63, (u - (nw'.nextSN - count)) / TWO63;
    assert nw.nextSN - nw'.nextSN == TWO63 * (b - a);
    Multiple(b - a);
  }

  lemma RootGivesMessages(mod: Module, a: seq<Bytes>, b: seq<Bytes>)
    requires CollisionFree(mod.hash) && |a| == |b| && MerkleRoot(mod.hash, Hashes(mod, a)) == MerkleRoot(mod.hash, Hashes(mod, b))
    ensures a == b
  {
    if a != [] {
      RootBinds(mod.hash, Hashes(mod, a), Hashes(mod, b));
      forall i | 0 <= i < |a| ensures a[i] == b[i] { assert Hashes(mod, a)[i] == Hashes(mod, b)[i]; }
    }
  }

  /** One section of a network: the state it was built in and what was sent. */
  datatype Turn = Turn(nw: NetworkView, messages: seq<Bytes>) {
    function Hash(nid: int, mod: Module): (r: Bytes) { SectionOf(nid, nw, messages, mod).hash }
  }

  /** The sections of a network from its first: each takes the hash of the one before it. */
  ghost predicate History(nid: int, turns: seq<Turn>, mod: Module) {
    turns != [] ==>
      var front, last := turns[..|turns| - 1], turns[|turns| - 1];
      && last.nw.last == (if front == [] then None else Some(front[|front| - 1].Hash(nid, mod)))
      && History(nid, front, mod)
  }

  /** The hash of the last section of a network commits to the whole history of the network: how many sections it has
      had and all the messages of each. */
  lemma {:induction false} HistoryBinds(nid: int, a: seq<Turn>, nid': int, b: seq<Turn>, mod: Module)
    requires CollisionFree(mod.hash) && Injective(mod.sectionHash) && History(nid, a, mod) && History(nid', b, mod)
    requires a != [] && b != [] && a[|a| - 1].Hash(nid, mod) == b[|b| - 1].Hash(nid', mod)
    ensures nid == nid' && |a| == |b|
    ensures forall i :: 0 <= i < |a| ==> a[i].messages == b[i].messages && a[i].nw.changed == b[i].nw.changed
  {
    hide SectionOf, MerkleRoot;
    var x, y := a[|a| - 1], b[|b| - 1];
    var front, front' := a[..|a| - 1], b[..|b| - 1];
    SectionBinds(nid, x.nw, x.messages, nid', y.nw, y.messages, mod);
    if front != [] { HistoryBinds(nid, front, nid', front', mod); }
    assert a == front + [x] && b == front' + [y];
  }

  // Sorted lists.

  predicate Sorted<T>(list: seq<T>, key: T -> int) {
    forall i, j :: 0 <= i < j < |list| ==> key(list[i]) < key(list[j])
  }

  /** The first place whose key is not below id, by bisection. */
  method LowerBound<T>(list: seq<T>, key: T -> int, id: int) returns (i: nat)
    requires Sorted(list, key)
    ensures i <= |list|
    ensures forall k :: 0 <= k < i ==> key(list[k]) < id
    ensures forall k :: i <= k < |list| ==> key(list[k]) >= id
  {
    i := 0;
    var j: nat := |list|;
    while i < j
      invariant i <= j <= |list|
      invariant forall k :: 0 <= k < i ==> key(list[k]) < id
      invariant forall k :: j <= k < |list| ==> key(list[k]) >= id
    {
      var h := i + (j - i) / 2;
      if key(list[h]) < id { i := h + 1; } else { j := h; }
    }
  }

  method SortedInsert<T(==)>(list: seq<T>, key: T -> int, x: T) returns (r: seq<T>)
    requires Sorted(list, key)
    ensures |r| == |list| + 1 && (forall y :: y in r <==> y in list || y == x)
    ensures (forall y :: y in list ==> key(y) != key(x)) ==> Sorted(r, key)
  {
    var i := LowerBound(list, key, key(x));
    r := list[..i] + [x] + list[i..];
    assert list == list[..i] + list[i..];
  }

  method Search<T(==)>(list: seq<T>, key: T -> int, id: int) returns (r: Option<T>)
    requires Sorted(list, key)
    ensures r == Lookup(list, key, id)
  {
    var i := LowerBound(list, key, id);
    if i < |list| && key(list[i]) == id {
      LookupAt(list, key, i);
      return Some(list[i]);
    }
    return None;
  }

  /** The element with this key. */
  function Lookup<T>(list: seq<T>, key: T -> int, id: int): (r: Option<T>)
    ensures r.Some? ==> r.value in list && key(r.value) == id
    ensures r.None? ==> forall y :: y in list ==> key(y) != id
  {
    if list == [] then None else if key(list[0]) == id then Some(list[0]) else Lookup(list[1..], key, id)
  }

  lemma LookupAt<T>(list: seq<T>, key: T -> int, i: nat)
    requires Sorted(list, key) && i < |list|
    ensures Lookup(list, key, key(list[i])) == Some(list[i])
  {
    var y := Lookup(list, key, key(list[i])).value;
    var j :| 0 <= j < |list| && list[j] == y;
  }

  /** A sorted list is decided by what is in it. */
  lemma {:induction false} SortedSame<T>(a: seq<T>, b: seq<T>, key: T -> int)
    requires Sorted(a, key) && Sorted(b, key) && (forall y :: y in a <==> y in b)
    ensures a == b
  {
    if b != [] { assert b[0] in b; }
    if a != [] {
      assert a[0] in b && b != [];
      assert b[0] in a;
      assert a[0] == b[0];
      forall y ensures y in a[1..] <==> y in b[1..] {
        TailOf(a, key, y);
        TailOf(b, key, y);
      }
      SortedSame(a[1..], b[1..], key);
    }
  }

  lemma TailOf<T>(a: seq<T>, key: T -> int, y: T)
    requires Sorted(a, key) && a != []
    ensures y in a[1..] <==> y in a && y != a[0]
  {
  }

  // Building.

  datatype TypeSection = TypeSection(ntid: int, uid: nat, contextHash: Bytes, sections: seq<Section>,
                                     root: Option<Bytes>, hash: Bytes, changed: bool)

  const ByNid: Section -> int := (s: Section) => s.nid

  const ByNtid: TypeSection -> int := (t: TypeSection) => t.ntid

  function SectionHashes(sections: seq<Section>): (r: seq<Bytes>) {
    seq(|sections|, i requires 0 <= i < |sections| => sections[i].hash)
  }

  predicate AnyChanged(sections: seq<Section>) { exists s :: s in sections && s.Changed() }

  function TypeSectionOf(ntid: int, nt: TypeView, sections: seq<Section>, changed: bool, mod: Module): (r: Option<TypeSection>) {
    var ctx := mod.contextHash(nt.context);
    var root := MerkleRoot(mod.hash, SectionHashes(sections));
    if ctx.None? then None
    else Some(TypeSection(ntid, nt.uid, ctx.value, sections, root, mod.typeHash(TypeFormat(ctx.value, root)), changed))
  }

  method NewNetworkTypeSection(ntid: int, nt: TypeView, sections: seq<Section>, changed: bool, mod: Module)
    returns (r: Option<TypeSection>)
    ensures r.None? <==> mod.contextHash(nt.context).None?
    ensures r.Some? ==> r.value.ntid == ntid && r.value.uid == nt.uid && r.value.sections == sections && r.value.changed == changed
    ensures r == TypeSectionOf(ntid, nt, sections, changed, mod)
  {
    var ctx := mod.contextHash(nt.context);
    if ctx.None? { return None; }
    var root := ComputeRoot(mod.hash, SectionHashes(sections));
    return Some(TypeSection(ntid, nt.uid, ctx.value, sections, root, mod.typeHash(TypeFormat(ctx.value, root)), changed));
  }

  /** With collision-free hashes, the hash of a type section commits to its next proof context and, among sections of
      equally many networks, to the hashes of all of them. */
  lemma TypeSectionBinds(ntid: int, nt: TypeView, a: seq<Section>, changed: bool, ntid': int, nt': TypeView, b: seq<Section>,
                         changed': bool, mod: Module)
    requires CollisionFree(mod.hash) && (forall x, y {:trigger mod.typeHash(x), mod.typeHash(y)} :: mod.typeHash(x) == mod.typeHash(y) ==> x == y)
    requires Cells(SectionHashes(a)) && Cells(SectionHashes(b)) && |a| == |b|
    requires var r, r' := TypeSectionOf(ntid, nt, a, changed, mod), TypeSectionOf(ntid', nt', b, changed', mod);
      r.Some? && r'.Some? && r.value.hash == r'.value.hash
    ensures mod.contextHash(nt.context) == mod.contextHash(nt'.context) && SectionHashes(a) == SectionHashes(b)
  {
    if a != [] { RootBinds(mod.hash, SectionHashes(a), SectionHashes(b)); }
  }

  /** What was sent to each network, for the networks to be updated. */
  type Entries = map<int, seq<Bytes>>

  predicate Resolves(v: StateView, nid: int) { nid in v.networks && v.networks[nid].ntid in v.types }

  predicate Parses(v: StateView, mods: nat -> Module, ntid: int)
    requires ntid in v.types
  {
    mods(v.types[ntid].uid).contextHash(v.types[ntid].context).Some?
  }

  /** What the section of a network must be. */
  function Wanted(v: StateView, entries: Entries, mods: nat -> Module, nid: int): (s: Section)
    requires nid in entries && Resolves(v, nid)
    ensures s.nid == nid
  {
    var nw := v.networks[nid];
    SectionOf(nid, nw, entries[nid], mods(v.types[nw.ntid].uid))
  }

  /** The sections of one type for these networks. */
  ghost predicate Collected(v: StateView, entries: Entries, mods: nat -> Module, nids: set<int>, ntid: int, sections: seq<Section>) {
    && Sorted(sections, ByNid)
    && (forall s :: s in sections ==> && s.nid in nids && s.nid in entries && Resolves(v, s.nid)
                                      && v.networks[s.nid].ntid == ntid && s == Wanted(v, entries, mods, s.nid))
    && (forall nid :: nid in nids && nid in entries && Resolves(v, nid) && v.networks[nid].ntid == ntid
          ==> Wanted(v, entries, mods, nid) in sections)
  }

  lemma CollectedMore(v: StateView, entries: Entries, mods: nat -> Module, nids: set<int>, nid: int, ntid: int,
                      list: seq<Section>, list': seq<Section>)
    requires Collected(v, entries, mods, nids, ntid, list)
    requires nid in entries && Resolves(v, nid) && Sorted(list', ByNid)
    requires if v.networks[nid].ntid == ntid then forall s :: s in list' <==> s in list || s == Wanted(v, entries, mods, nid)
             else list' == list
    ensures Collected(v, entries, mods, nids + {nid}, ntid, list')
  {
    hide Wanted;
  }

  /** The sections of these networks, by type. */
  ghost predicate Gathered(v: StateView, entries: Entries, mods: nat -> Module, nids: set<int>,
                           nsMap: map<int, seq<Section>>, changed: set<int>) {
    && (forall nid :: nid in nids ==> Resolves(v, nid) && v.networks[nid].ntid in nsMap)
    && (forall ntid :: ntid in nsMap ==> ntid in v.types && nsMap[ntid] != []
                                         && Collected(v, entries, mods, nids, ntid, nsMap[ntid]))
    && (forall ntid :: ntid in changed <==> ntid in nsMap && AnyChanged(nsMap[ntid]))
  }

  method AddNetwork(v: StateView, entries: Entries, mods: nat -> Module, ghost nids: set<int>, nid: int,
                    nsMap: map<int, seq<Section>>, changed: set<int>)
    returns (nsMap': map<int, seq<Section>>, changed': set<int>)
    requires nid in entries && nid !in nids && Resolves(v, nid) && Gathered(v, entries, mods, nids, nsMap, changed)
    ensures Gathered(v, entries, mods, nids + {nid}, nsMap', changed')
  {
    hide Collected, SectionOf, Sorted, Section.Changed, Section.Count, UpdateNumber;
    var ntid := v.networks[nid].ntid;
    var ns := NewNetworkSection(nid, v.networks[nid], entries[nid], mods(v.types[ntid].uid));
    assert ns == Wanted(v, entries, mods, nid) && ByNid(ns) == nid;
    var list := if ntid in nsMap then nsMap[ntid] else [];
    CollectedList(v, entries, mods, nids, ntid, nsMap, changed);
    var list' := SortedInsert(list, ByNid, ns);
    CollectedMore(v, entries, mods, nids, nid, ntid, list, list');
    assert AnyChanged(list') <==> AnyChanged(list) || ns.Changed();
    nsMap' := nsMap[ntid := list'];
    changed' := if ns.Changed() then changed + {ntid} else changed;
    forall t | t in nsMap && t != ntid ensures Collected(v, entries, mods, nids + {nid}, t, nsMap[t]) {
      CollectedList(v, entries, mods, nids, t, nsMap, changed);
      CollectedMore(v, entries, mods, nids, nid, t, nsMap[t], nsMap[t]);
    }
  }

  lemma CollectedList(v: StateView, entries: Entries, mods: nat -> Module, nids: set<int>, ntid: int,
                      nsMap: map<int, seq<Section>>, changed: set<int>)
    requires Gathered(v, entries, mods, nids, nsMap, changed)
    ensures var list := if ntid in nsMap then nsMap[ntid] else [];
      Collected(v, entries, mods, nids, ntid, list) && Sorted(list, ByNid) && forall s :: s in list ==> ByNid(s) in nids
  {
  }

  /** The network sections by type, gathered in whatever order the map is walked. */
  method Collect(v: StateView, entries: Entries, mods: nat -> Module)
    returns (ok: bool, nsMap: map<int, seq<Section>>, changed: set<int>)
    ensures ok <==> forall nid :: nid in entries ==> Resolves(v, nid)
    ensures ok ==> Gathered(v, entries, mods, entries.Keys, nsMap, changed)
  {
    hide Gathered;
    nsMap, changed := map[], {};
    var todo := entries.Keys;
    NoneGathered(v, entries, mods);
    while todo != {}
      invariant todo <= entries.Keys
      invariant forall nid :: nid in entries.Keys - todo ==> Resolves(v, nid)
      invariant Gathered(v, entries, mods, entries.Keys - todo, nsMap, changed)
    {
      HasMember(todo);
      var nid :| nid in todo;
      if nid !in v.networks { return false, nsMap, changed; }
      var ntid := v.networks[nid].ntid;
      if ntid !in v.types { return false, nsMap, changed; }
      nsMap, changed := AddNetwork(v, entries, mods, entries.Keys - todo, nid, nsMap, changed);
      assert entries.Keys - todo + {nid} == entries.Keys - (todo - {nid});
      todo := todo - {nid};
    }
    assert entries.Keys - todo == entries.Keys;
    return true, nsMap, changed;
  }

  lemma HasMember(s: set<int>)
    ensures s != {} ==> exists x :: x in s
  {
    if forall x :: x !in s { assert s == {}; }
  }

  lemma NoneGathered(v: StateView, entries: Entries, mods: nat -> Module)
    ensures Gathered(v, entries, mods, entries.Keys - entries.Keys, map[], {})
  {
  }

  ghost predicate TypeOk(v: StateView, entries: Entries, mods: nat -> Module, t: TypeSection) {
    && t.ntid in v.types && t.sections != [] && Collected(v, entries, mods, entries.Keys, t.ntid, t.sections)
    && TypeSectionOf(t.ntid, v.types[t.ntid], t.sections, AnyChanged(t.sections), mods(v.types[t.ntid].uid)) == Some(t)
  }

  predicate HasType(types: seq<TypeSection>, ntid: int) { exists t :: t in types && t.ntid == ntid }

  /** What a build must give: one section for each type that has an updated network, in order of type,
      and in it one section for each updated network of the type, in order of network. */
  ghost predicate IsBuild(v: StateView, entries: Entries, mods: nat -> Module, types: seq<TypeSection>) {
    && Sorted(types, ByNtid)
    && (forall t :: t in types ==> TypeOk(v, entries, mods, t))
    && (forall nid :: nid in entries ==> Resolves(v, nid) && HasType(types, v.networks[nid].ntid))
  }

  lemma CollectedUnique(v: StateView, entries: Entries, mods: nat -> Module, nids: set<int>, ntid: int,
                        a: seq<Section>, b: seq<Section>)
    requires Collected(v, entries, mods, nids, ntid, a) && Collected(v, entries, mods, nids, ntid, b)
    ensures a == b
  {
    hide Wanted;
    SortedSame(a, b, ByNid);
  }

  /** Determinism: the state and what was sent decide the sections, whatever order the maps are walked in. */
  lemma BuildUnique(v: StateView, entries: Entries, mods: nat -> Module, a: seq<TypeSection>, b: seq<TypeSection>)
    requires IsBuild(v, entries, mods, a) && IsBuild(v, entries, mods, b)
    ensures a == b
  {
    forall t ensures t in a <==> t in b {
      if t in a { InBoth(v, entries, mods, a, b, t); }
      if t in b { InBoth(v, entries, mods, b, a, t); }
    }
    SortedSame(a, b, ByNtid);
  }

  lemma InBoth(v: StateView, entries: Entries, mods: nat -> Module, a: seq<TypeSection>, b: seq<TypeSection>, t: TypeSection)
    requires IsBuild(v, entries, mods, a) && IsBuild(v, entries, mods, b) && t in a
    ensures t in b
  {
    hide TypeSectionOf, Wanted, Sorted;
    assert t.sections[0] in t.sections;
    var u :| u in b && u.ntid == t.ntid;
    CollectedUnique(v, entries, mods, entries.Keys, t.ntid, t.sections, u.sections);
  }

  /** The types done so far. */
  ghost predicate Assembled(v: StateView, entries: Entries, mods: nat -> Module, done: set<int>, types: seq<TypeSection>) {
    && Sorted(types, ByNtid)
    && (forall t :: t in types ==> t.ntid in done && TypeOk(v, entries, mods, t))
    && (forall ntid :: ntid in done ==> HasType(types, ntid))
  }

  lemma AssembledMore(v: StateView, entries: Entries, mods: nat -> Module, done: set<int>, types: seq<TypeSection>,
                      t: TypeSection, types': seq<TypeSection>)
    requires Assembled(v, entries, mods, done, types) && TypeOk(v, entries, mods, t) && Sorted(types', ByNtid)
    requires forall u :: u in types' <==> u in types || u == t
    ensures Assembled(v, entries, mods, done + {t.ntid}, types')
  {
    hide TypeOk, Sorted;
    forall ntid | ntid in done + {t.ntid} ensures HasType(types', ntid) {
      if ntid in done {
        var u :| u in types && u.ntid == ntid;
        assert u in types';
      } else {
        assert t in types';
      }
    }
  }

  /** The type sections, put together in whatever order the map is walked. */
  method Assemble(v: StateView, entries: Entries, mods: nat -> Module, nsMap: map<int, seq<Section>>, changed: set<int>)
    returns (r: Option<seq<TypeSection>>)
    requires Gathered(v, entries, mods, entries.Keys, nsMap, changed)
    ensures r.Some? <==> forall ntid :: ntid in nsMap ==> ntid in v.types && Parses(v, mods, ntid)
    ensures r.Some? ==> Assembled(v, entries, mods, nsMap.Keys, r.value)
  {
    hide Collected, Sorted, MerkleRoot;
    var types := [];
    var todo := nsMap.Keys;
    NoneAssembled(v, entries, mods);
    assert nsMap.Keys - todo == {};
    while todo != {}
      invariant todo <= nsMap.Keys
      invariant Assembled(v, entries, mods, nsMap.Keys - todo, types)
      invariant forall ntid :: ntid in nsMap.Keys - todo ==> Parses(v, mods, ntid)
    {
      HasMember(todo);
      var ntid :| ntid in todo;
      var nt := v.types[ntid];
      var t := NewNetworkTypeSection(ntid, nt, nsMap[ntid], ntid in changed, mods(nt.uid));
      if t.None? { return None; }
      var types' := SortedInsert(types, ByNtid, t.value);
      AssembledMore(v, entries, mods, nsMap.Keys - todo, types, t.value, types');
      assert nsMap.Keys - todo + {ntid} == nsMap.Keys - (todo - {ntid});
      types := types';
      todo := todo - {ntid};
    }
    assert nsMap.Keys - todo == nsMap.Keys;
    return Some(types);
  }

  lemma NoneAssembled(v: StateView, entries: Entries, mods: nat -> Module)
    ensures Assembled(v, entries, mods, {}, [])
  {
  }

  predicate Buildable(v: StateView, entries: Entries, mods: nat -> Module) {
    forall nid :: nid in entries ==> Resolves(v, nid) && Parses(v, mods, v.networks[nid].ntid)
  }

  method Build(v: StateView, entries: Entries, mods: nat -> Module) returns (r: Option<seq<TypeSection>>)
    ensures r.Some? <==> Buildable(v, entries, mods)
    ensures r.Some? ==> IsBuild(v, entries, mods, r.value)
  {
    var ok, nsMap, changed := Collect(v, entries, mods);
    if !ok { return None; }
    r := Assemble(v, entries, mods, nsMap, changed);
    TypesAreUsed(v, entries, mods, nsMap, changed);
  }

  lemma TypesAreUsed(v: StateView, entries: Entries, mods: nat -> Module, nsMap: map<int, seq<Section>>, changed: set<int>)
    requires Gathered(v, entries, mods, entries.Keys, nsMap, changed)
    ensures forall ntid :: ntid in nsMap <==> ntid in v.types && exists nid :: nid in entries && Resolves(v, nid) && v.networks[nid].ntid == ntid
  {
    hide Wanted, Sorted;
    forall ntid | ntid in nsMap ensures exists nid :: nid in entries && Resolves(v, nid) && v.networks[nid].ntid == ntid {
      assert nsMap[ntid][0] in nsMap[ntid];
    }
  }

  /** Collects what a transition sends and builds the section at its end. */
  class SectionBuilder {
    const view: StateView
    const mods: nat -> Module
    var entries: Entries

    constructor (view: StateView, mods: nat -> Module)
      ensures entries == map[] && this.view == view && this.mods == mods
    {
      this.view, this.mods, entries := view, mods, map[];
    }

    method SendMessage(nid: int, msg: Bytes)
      modifies this
      ensures entries == old(entries)[nid := (if nid in old(entries) then old(entries)[nid] else []) + [msg]]
    {
      EnsureSection(nid);
      entries := entries[nid := entries[nid] + [msg]];
    }

    method EnsureSection(nid: int)
      modifies this
      ensures entries == if nid in old(entries) then old(entries) else old(entries)[nid := []]
    {
      if nid !in entries { entries := entries[nid := []]; }
    }

    method Section() returns (r: Option<seq<TypeSection>>)
      ensures r.Some? <==> Buildable(view, entries, mods)
      ensures r.Some? ==> IsBuild(view, entries, mods, r.value)
    {
      r := Build(view, entries, mods);
    }
  }

  // Storing.

  function Apply<K, V>(m: map<K, V>, puts: seq<(K, V)>): (r: map<K, V>) {
    if puts == [] then m
    else Apply(m, puts[..|puts| - 1])[puts[|puts| - 1].0 := puts[|puts| - 1].1]
  }

  lemma ApplyOne<K, V>(m: map<K, V>, puts: seq<(K, V)>, k: K, v: V)
    ensures Apply(m, puts + [(k, v)]) == Apply(m, puts)[k := v]
  {
    assert (puts + [(k, v)])[..|puts|] == puts;
  }

  lemma {:induction false} ApplyCat<K, V>(m: map<K, V>, a: seq<(K, V)>, b: seq<(K, V)>)
    ensures Apply(m, a + b) == Apply(Apply(m, a), b)
  {
    if b == [] {
      assert a + b == a;
    } else {
      var front, p := b[..|b| - 1], b[|b| - 1];
      ApplyCat(m, a, front);
      ApplyOne(m, a + front, p.0, p.1);
      assert a + b == (a + front) + [(p.0, p.1)];
    }
  }

  /** The last value put for a key stays. */
  lemma {:induction false} ApplyHas<K, V>(m: map<K, V>, puts: seq<(K, V)>, i: nat)
    requires i < |puts|
    ensures puts[i].0 in Apply(m, puts)
    ensures exists j :: 0 <= j < |puts| && puts[j].0 == puts[i].0 && puts[j].1 == Apply(m, puts)[puts[i].0]
  {
    var front, p := puts[..|puts| - 1], puts[|puts| - 1];
    if p.0 != puts[i].0 {
      ApplyHas(m, front, i);
      var j :| 0 <= j < |front| && front[j].0 == front[i].0 && front[j].1 == Apply(m, front)[front[i].0];
      assert puts[j] == front[j];
    } else {
      assert puts[|puts| - 1].1 == Apply(m, puts)[puts[i].0];
    }
  }

  /** A bucket is kept for each kind of module. */
  type Key = (nat, Bytes)

  function ListPuts(uid: nat, sections: seq<Section>): (r: seq<(Key, Bytes)>) {
    if sections == [] then []
    else
      var s := sections[|sections| - 1];
      ListPuts(uid, sections[..|sections| - 1]) + if s.root.Some? then [((uid, s.root.value), s.hashes)] else []
  }

  function AllLists(types: seq<TypeSection>): (r: seq<(Key, Bytes)>) {
    if types == [] then []
    else AllLists(types[..|types| - 1]) + ListPuts(types[|types| - 1].uid, types[|types| - 1].sections)
  }

  ghost predicate Listed(types: seq<TypeSection>, p: (Key, Bytes)) {
    exists t, s :: t in types && s in t.sections && s.root == Some(p.0.1) && t.uid == p.0.0 && s.hashes == p.1
  }

  lemma {:induction false} ListPutsAre(uid: nat, sections: seq<Section>, p: (Key, Bytes))
    ensures p in ListPuts(uid, sections) <==> p.0.0 == uid && exists s :: s in sections && s.root == Some(p.0.1) && s.hashes == p.1
  {
    if sections != [] {
      var front, s := sections[..|sections| - 1], sections[|sections| - 1];
      ListPutsAre(uid, front, p);
      assert sections == front + [s];
    }
  }

  lemma {:induction false} AllListsAre(types: seq<TypeSection>, p: (Key, Bytes))
    ensures p in AllLists(types) <==> Listed(types, p)
  {
    if types != [] {
      var front, t := types[..|types| - 1], types[|types| - 1];
      AllListsAre(front, p);
      ListPutsAre(t.uid, t.sections, p);
      assert types == front + [t];
    }
  }

  /** Each list of hashes is found under its root. */
  ghost predicate Kept(lists: map<Key, Bytes>, types: seq<TypeSection>) {
    forall t, s :: t in types && s in t.sections && s.root.Some? ==>
      (t.uid, s.root.value) in lists && lists[(t.uid, s.root.value)] == s.hashes
  }

  /** Networks of one kind of module have the same root only for the same list. */
  ghost predicate Unambiguous(types: seq<TypeSection>) {
    forall t, s, t', s' :: t in types && s in t.sections && t' in types && s' in t'.sections ==>
      (s.root.Some? && s.root == s'.root && t.uid == t'.uid ==> s.hashes == s'.hashes)
  }

  /** Every list can be read back if and only if no two lists share a root. */
  lemma {:induction false} KeptIff(lists: map<Key, Bytes>, types: seq<TypeSection>)
    ensures Kept(Apply(lists, AllLists(types)), types) <==> Unambiguous(types)
  {
    if Unambiguous(types) {
      forall t, s | t in types && s in t.sections && s.root.Some?
        ensures (t.uid, s.root.value) in Apply(lists, AllLists(types)) && Apply(lists, AllLists(types))[(t.uid, s.root.value)] == s.hashes
      {
        KeptOne(lists, types, t, s);
      }
    }
  }

  lemma KeptOne(lists: map<Key, Bytes>, types: seq<TypeSection>, t: TypeSection, s: Section)
    requires Unambiguous(types) && t in types && s in t.sections && s.root.Some?
    ensures var after := Apply(lists, AllLists(types));
      (t.uid, s.root.value) in after && after[(t.uid, s.root.value)] == s.hashes
  {
    hide Apply, AllLists;
    var p, puts := ((t.uid, s.root.value), s.hashes), AllLists(types);
    AllListsAre(types, p);
    var i :| 0 <= i < |puts| && puts[i] == p;
    ApplyHas(lists, puts, i);
    var j :| 0 <= j < |puts| && puts[j].0 == p.0 && puts[j].1 == Apply(lists, puts)[p.0];
    AllListsAre(types, puts[j]);
  }

  /** The types of several stored sections. */
  function AllTypes(blocks: seq<seq<TypeSection>>): (r: seq<TypeSection>) {
    if blocks == [] then [] else AllTypes(blocks[..|blocks| - 1]) + blocks[|blocks| - 1]
  }

  /** What the bucket of lists holds after several sections were stored, one after the other. */
  function FlushedAll(lists: map<Key, Bytes>, blocks: seq<seq<TypeSection>>): (r: map<Key, Bytes>) {
    if blocks == [] then lists else Apply(FlushedAll(lists, blocks[..|blocks| - 1]), AllLists(blocks[|blocks| - 1]))
  }

  lemma {:induction false} AllListsCat(a: seq<TypeSection>, b: seq<TypeSection>)
    ensures AllLists(a + b) == AllLists(a) + AllLists(b)
  {
    if b == [] {
      assert a + b == a;
    } else {
      AllListsCat(a, b[..|b| - 1]);
      assert (a + b)[..|a + b| - 1] == a + b[..|b| - 1];
    }
  }

  lemma {:induction false} FlushedAllIs(lists: map<Key, Bytes>, blocks: seq<seq<TypeSection>>)
    ensures FlushedAll(lists, blocks) == Apply(lists, AllLists(AllTypes(blocks)))
  {
    if blocks != [] {
      var front, last := blocks[..|blocks| - 1], blocks[|blocks| - 1];
      FlushedAllIs(lists, front);
      AllListsCat(AllTypes(front), last);
      ApplyCat(lists, AllLists(AllTypes(front)), AllLists(last));
    }
  }

  /** The buckets are shared by all blocks: after any number of flushes every list of every block can be read back
      if and only if no two lists of any of them share a root. */
  lemma {:induction false} AllKeptIff(lists: map<Key, Bytes>, blocks: seq<seq<TypeSection>>)
    ensures (forall i :: 0 <= i < |blocks| ==> Kept(FlushedAll(lists, blocks), blocks[i])) <==> Unambiguous(AllTypes(blocks))
  {
    hide FlushedAll, AllTypes, Unambiguous, AllLists, Apply;
    FlushedAllIs(lists, blocks);
    KeptIff(lists, AllTypes(blocks));
    KeptByBlock(FlushedAll(lists, blocks), blocks);
  }

  lemma {:induction false} KeptByBlock(lists: map<Key, Bytes>, blocks: seq<seq<TypeSection>>)
    ensures (forall i :: 0 <= i < |blocks| ==> Kept(lists, blocks[i])) <==> Kept(lists, AllTypes(blocks))
  {
    if blocks != [] {
      var front, last := blocks[..|blocks| - 1], blocks[|blocks| - 1];
      KeptByBlock(lists, front);
      KeptCat(lists, AllTypes(front), last);
      hide Kept;
      assert blocks == front + [last];
    }
  }

  lemma KeptCat(lists: map<Key, Bytes>, a: seq<TypeSection>, b: seq<TypeSection>)
    ensures Kept(lists, a + b) <==> Kept(lists, a) && Kept(lists, b)
  {
    assert forall t :: t in a + b <==> t in a || t in b;
  }

  lemma {:induction false} InSomeBlock(blocks: seq<seq<TypeSection>>, t: TypeSection)
    ensures t in AllTypes(blocks) <==> exists i :: 0 <= i < |blocks| && t in blocks[i]
  {
    if blocks != [] {
      InSomeBlock(blocks[..|blocks| - 1], t);
      assert blocks[..|blocks| - 1] + [blocks[|blocks| - 1]] == blocks;
    }
  }

  /** Roots can be shared: two messages, and the one message made of their hashes. */
  lemma SharedRoot(nid: int, nw: NetworkView, nid': int, nw': NetworkView, a: Bytes, b: Bytes, mod: Module)
    requires Sized(mod)
    ensures var s, s' := SectionOf(nid, nw, [a, b], mod), SectionOf(nid', nw', [mod.hash(a) + mod.hash(b)], mod);
      s.root.Some? && s.root == s'.root && s.Count() == 2 && s'.Count() == 1
  {
    SectionSays(nid, nw, [a, b], mod);
    SectionSays(nid', nw', [mod.hash(a) + mod.hash(b)], mod);
    assert Hashes(mod, [a, b]) == [mod.hash(a), mod.hash(b)];
    assert Hashes(mod, [mod.hash(a) + mod.hash(b)]) == [mod.hash(mod.hash(a) + mod.hash(b))];
    RootsOfTwoLengths(mod.hash, mod.hash(a), mod.hash(b));
  }

  function DataPuts(uid: nat, s: Section, n: nat): (r: seq<(Key, Bytes)>)
    requires n <= |s.messages| && |s.hashes| == |s.messages| * HASH_LEN
  {
    if n == 0 then [] else DataPuts(uid, s, n - 1) + [((uid, Cell(s.hashes, n - 1)), s.messages[n - 1])]
  }

  /** One hash for each message. */
  predicate Paired(s: Section) { |s.hashes| == |s.messages| * HASH_LEN && (s.root.None? ==> s.messages == []) }

  predicate AllPaired(types: seq<TypeSection>) { forall t, s :: t in types && s in t.sections ==> Paired(s) }

  function TypeData(uid: nat, sections: seq<Section>): (r: seq<(Key, Bytes)>)
    requires forall s :: s in sections ==> Paired(s)
  {
    if sections == [] then []
    else
      var s := sections[|sections| - 1];
      assert s in sections && Paired(s);
      TypeData(uid, sections[..|sections| - 1]) + DataPuts(uid, s, |s.messages|)
  }

  function AllData(types: seq<TypeSection>): (r: seq<(Key, Bytes)>)
    requires AllPaired(types)
  {
    if types == [] then []
    else
      var t := types[|types| - 1];
      AllData(types[..|types| - 1]) + TypeData(t.uid, t.sections)
  }

  /** The put of one message. */
  ghost predicate IsMessage(uid: nat, s: Section, p: (Key, Bytes))
    requires Paired(s)
  {
    exists i :: 0 <= i < |s.messages| && p == ((uid, Cell(s.hashes, i)), s.messages[i])
  }

  lemma {:induction false} DataPutsAre(uid: nat, s: Section, n: nat, p: (Key, Bytes))
    requires Paired(s) && n <= |s.messages|
    ensures p in DataPuts(uid, s, n) <==> exists i :: 0 <= i < n && p == ((uid, Cell(s.hashes, i)), s.messages[i])
  {
    if n > 0 { DataPutsAre(uid, s, n - 1, p); }
  }

  lemma {:induction false} TypeDataAre(uid: nat, sections: seq<Section>, p: (Key, Bytes))
    requires forall s :: s in sections ==> Paired(s)
    ensures p in TypeData(uid, sections) <==> exists s :: s in sections && IsMessage(uid, s, p)
  {
    if sections != [] {
      var front, s := sections[..|sections| - 1], sections[|sections| - 1];
      assert s in sections && Paired(s);
      TypeDataAre(uid, front, p);
      DataPutsAre(uid, s, |s.messages|, p);
      assert sections == front + [s];
    }
  }

  lemma {:induction false} AllDataAre(types: seq<TypeSection>, p: (Key, Bytes))
    requires AllPaired(types)
    ensures p in AllData(types) <==> exists t, s :: t in types && s in t.sections && IsMessage(t.uid, s, p)
  {
    if types != [] {
      hide TypeData, IsMessage;
      var front, t := types[..|types| - 1], types[|types| - 1];
      AllDataAre(front, p);
      TypeDataAre(t.uid, t.sections, p);
      assert types == front + [t];
    }
  }

  /** The two kinds of bucket that sections are stored in. */
  class Database {
    var lists: map<Key, Bytes>
    var data: map<Key, Bytes>

    method FlushMessages(uid: nat, s: Section)
      requires Paired(s)
      modifies this
      ensures lists == Apply(old(lists), ListPuts(uid, [s])) && data == Apply(old(data), DataPuts(uid, s, |s.messages|))
    {
      if s.root.None? { return; }
      lists := lists[(uid, s.root.value) := s.hashes];
      for i := 0 to |s.messages|
        invariant lists == old(lists)[(uid, s.root.value) := s.hashes] && data == Apply(old(data), DataPuts(uid, s, i))
      {
        ApplyOne(old(data), DataPuts(uid, s, i), (uid, Cell(s.hashes, i)), s.messages[i]);
        data := data[(uid, Cell(s.hashes, i)) := s.messages[i]];
      }
    }

    method FlushType(t: TypeSection)
      requires forall s :: s in t.sections ==> Paired(s)
      modifies this
      ensures lists == Apply(old(lists), ListPuts(t.uid, t.sections)) && data == Apply(old(data), TypeData(t.uid, t.sections))
    {
      hide DataPuts;
      for i := 0 to |t.sections|
        invariant lists == Apply(old(lists), ListPuts(t.uid, t.sections[..i]))
        invariant data == Apply(old(data), TypeData(t.uid, t.sections[..i]))
      {
        assert t.sections[..i + 1][..i] == t.sections[..i] && t.sections[i] in t.sections && Paired(t.sections[i]);
        assert ListPuts(t.uid, []) == [];
        ApplyCat(old(lists), ListPuts(t.uid, t.sections[..i]), ListPuts(t.uid, [t.sections[i]]));
        ApplyCat(old(data), TypeData(t.uid, t.sections[..i]), DataPuts(t.uid, t.sections[i], |t.sections[i].messages|));
        FlushMessages(t.uid, t.sections[i]);
      }
      assert t.sections[..|t.sections|] == t.sections;
    }

    /** Stores the lists of hashes and the messages of all sections. */
    method Flush(types: seq<TypeSection>)
      requires AllPaired(types)
      modifies this
      ensures lists == Apply(old(lists), AllLists(types)) && data == Apply(old(data), AllData(types))
    {
      hide ListPuts, TypeData;
      for i := 0 to |types|
        invariant lists == Apply(old(lists), AllLists(types[..i])) && data == Apply(old(data), AllData(types[..i]))
      {
        assert types[..i + 1][..i] == types[..i];
        ApplyCat(old(lists), AllLists(types[..i]), ListPuts(types[i].uid, types[i].sections));
        ApplyCat(old(data), AllData(types[..i]), TypeData(types[i].uid, types[i].sections));
        FlushType(types[i]);
      }
      assert types[..|types|] == types;
    }
  }

  // Reloading.

  datatype NetworkDigest = NetworkDigest(nid: int, hash: Bytes, root: Option<Bytes>)

  datatype TypeDigest = TypeDigest(ntid: int, uid: nat, hash: Bytes, networks: seq<NetworkDigest>)

  function DigestOfSection(s: Section): (d: NetworkDigest) { NetworkDigest(s.nid, s.hash, s.root) }

  function DigestOfSections(sections: seq<Section>): (d: seq<NetworkDigest>) {
    seq(|sections|, i requires 0 <= i < |sections| => DigestOfSection(sections[i]))
  }

  function DigestOfType(t: TypeSection): (d: TypeDigest) {
    TypeDigest(t.ntid, t.uid, t.hash, DigestOfSections(t.sections))
  }

  /** What the stored digest of a section holds. */
  function DigestOf(types: seq<TypeSection>): (d: seq<TypeDigest>) {
    seq(|types|, i requires 0 <= i < |types| => DigestOfType(types[i]))
  }

  const ByDigestNid: NetworkDigest -> int := (d: NetworkDigest) => d.nid

  const ByDigestNtid: TypeDigest -> int := (d: TypeDigest) => d.ntid

  function DigestHashes(networks: seq<NetworkDigest>): (r: seq<Bytes>) {
    seq(|networks|, i requires 0 <= i < |networks| => networks[i].hash)
  }

  /** What a network section shows. */
  datatype Shown = Shown(nid: int, hash: Option<Bytes>, updateNumber: int, firstSN: int, changed: bool,
                         prev: Option<Bytes>, count: nat, root: Option<Bytes>)

  function ShownBuilt(s: Section): (r: Shown) {
    Shown(s.nid, Some(s.hash), s.updateNumber, s.FirstSN(), s.Changed(), s.prev, s.Count(), s.root)
  }

  /** A root that is absent or unknown stands for no hashes. */
  function Stored(lists: map<Key, Bytes>, uid: nat, root: Option<Bytes>): (r: Bytes) {
    if root.Some? && (uid, root.value) in lists then lists[(uid, root.value)] else []
  }

  function ShownFromDigest(nw: NetworkView, d: NetworkDigest, hashes: Bytes): (r: Shown) {
    var count := |hashes| / HASH_LEN;
    Shown(d.nid, nw.last, UpdateNumber(nw, count), Int64(nw.nextSN - count), nw.changed, nw.prev, count, d.root)
  }

  /** The state after the transition: as the builder saw it, with the new hashes chained on. */
  ghost predicate FinalView(v: StateView, types: seq<TypeSection>, v': StateView) {
    && v'.types == v.types && v'.networks.Keys == v.networks.Keys
    && (forall t, s :: t in types && s in t.sections && s.nid in v.networks ==>
          v'.networks[s.nid] == v.networks[s.nid].(prev := v.networks[s.nid].last, last := Some(s.hash)))
  }

  ghost predicate AllSized(mods: nat -> Module) { forall uid :: Sized(mods(uid)) }

  /** What is known of a section that was built. */
  lemma BuiltSection(v: StateView, entries: Entries, mods: nat -> Module, types: seq<TypeSection>, t: TypeSection, s: Section)
    requires IsBuild(v, entries, mods, types) && AllSized(mods) && t in types && s in t.sections
    ensures s.nid in entries && Resolves(v, s.nid) && Paired(s) && s.Count() == |entries[s.nid]|
    ensures var nw := v.networks[s.nid];
      && s.prev == nw.last && s.updateNumber == UpdateNumber(nw, s.Count()) && (s.Changed() <==> nw.changed)
      && nw.ntid == t.ntid
  {
    hide Sorted, UpdateNumber;
    assert TypeOk(v, entries, mods, t) && s == Wanted(v, entries, mods, s.nid);
    var nw := v.networks[s.nid];
    var mod := mods(v.types[nw.ntid].uid);
    assert Sized(mod);
    SectionSays(s.nid, nw, entries[s.nid], mod);
    CatRow(Hashes(mod, entries[s.nid]));
  }

  lemma BuiltPaired(v: StateView, entries: Entries, mods: nat -> Module, types: seq<TypeSection>)
    requires IsBuild(v, entries, mods, types) && AllSized(mods)
    ensures AllPaired(types)
  {
    forall t, s | t in types && s in t.sections ensures Paired(s) {
      BuiltSection(v, entries, mods, types, t, s);
    }
  }

  /** A reloaded section shows what the built one shows if and only if the list stored under its root has as many
      hashes and the first sequence number fits in 63 bits. */
  lemma ReloadedAgreesIff(v: StateView, entries: Entries, mods: nat -> Module, types: seq<TypeSection>, v': StateView,
                          t: TypeSection, s: Section, hashes: Bytes)
    requires IsBuild(v, entries, mods, types) && AllSized(mods) && FinalView(v, types, v') && t in types && s in t.sections
    ensures s.nid in v.networks && s.nid in v'.networks
    ensures ShownFromDigest(v'.networks[s.nid], DigestOfSection(s), hashes) == ShownBuilt(s)
      <==> |hashes| / HASH_LEN == s.Count() && Fits(Int64(v.networks[s.nid].nextSN - s.Count()))
  {
    hide IsBuild, UpdateNumber;
    BuiltSection(v, entries, mods, types, t, s);
    HalfOfUpdate(v.networks[s.nid], s.Count());
    assert UpdateNumber(v'.networks[s.nid], s.Count()) == UpdateNumber(v.networks[s.nid], s.Count()) by { SameUpdate(v.networks[s.nid], v'.networks[s.nid], s.Count()); }
  }

  lemma SameUpdate(nw: NetworkView, nw': NetworkView, count: nat)
    requires nw.nextSN == nw'.nextSN && nw.changed == nw'.changed
    ensures UpdateNumber(nw, count) == UpdateNumber(nw', count)
  {
  }

  datatype TypeShown = TypeShown(ntid: int, hash: Bytes, root: Option<Bytes>, contextHash: Bytes, row: seq<Bytes>)

  function BuiltType(types: seq<TypeSection>, ntid: int): (r: Option<TypeShown>) {
    match Lookup(types, ByNtid, ntid)
    case None => None
    case Some(t) => Some(TypeShown(t.ntid, t.hash, t.root, t.contextHash, SectionHashes(t.sections)))
  }

  function BuiltNetwork(types: seq<TypeSection>, ntid: int, nid: int): (r: Option<Shown>) {
    match Lookup(types, ByNtid, ntid)
    case None => None
    case Some(t) => match Lookup(t.sections, ByNid, nid)
      case None => None
      case Some(s) => Some(ShownBuilt(s))
  }

  function ReloadedType(digest: seq<TypeDigest>, v: StateView, mods: nat -> Module, ntid: int): (r: Option<TypeShown>) {
    if ntid !in v.types then None
    else
      var mod := mods(v.types[ntid].uid);
      var ctx, d := mod.contextHash(v.types[ntid].context), Lookup(digest, ByDigestNtid, ntid);
      if ctx.None? || d.None? then None
      else
        var row := DigestHashes(d.value.networks);
        Some(TypeShown(d.value.ntid, d.value.hash, MerkleRoot(mod.hash, row), ctx.value, row))
  }

  function ReloadedNetwork(digest: seq<TypeDigest>, v: StateView, mods: nat -> Module, lists: map<Key, Bytes>,
                           ntid: int, nid: int): (r: Option<Shown>) {
    if ReloadedType(digest, v, mods, ntid).None? || nid !in v.networks then None
    else match Lookup(Lookup(digest, ByDigestNtid, ntid).value.networks, ByDigestNid, nid)
      case None => None
      case Some(d) => Some(ShownFromDigest(v.networks[nid], d, Stored(lists, v.types[ntid].uid, d.root)))
  }

  lemma LookupDigest(types: seq<TypeSection>, ntid: int)
    requires Sorted(types, ByNtid)
    ensures Lookup(DigestOf(types), ByDigestNtid, ntid) ==
      match Lookup(types, ByNtid, ntid) case None => None case Some(t) => Some(DigestOfType(t))
  {
    var digest := DigestOf(types);
    var d := Lookup(digest, ByDigestNtid, ntid);
    if d.Some? {
      var i :| 0 <= i < |digest| && digest[i] == d.value;
      LookupAt(types, ByNtid, i);
    } else {
      assert forall i :: 0 <= i < |types| ==> digest[i] in digest && ByNtid(types[i]) != ntid;
    }
  }

  lemma LookupNetworkDigest(sections: seq<Section>, nid: int)
    requires Sorted(sections, ByNid)
    ensures Lookup(DigestOfSections(sections), ByDigestNid, nid) ==
      match Lookup(sections, ByNid, nid) case None => None case Some(s) => Some(DigestOfSection(s))
  {
    var digest := DigestOfSections(sections);
    var d := Lookup(digest, ByDigestNid, nid);
    if d.Some? {
      var i :| 0 <= i < |digest| && digest[i] == d.value;
      LookupAt(sections, ByNid, i);
    } else {
      assert forall i :: 0 <= i < |sections| ==> digest[i] in digest && ByNid(sections[i]) != nid;
    }
  }

  /** The two forms of a type section agree, for every type: hash, root, context, and the row of hashes that proofs
      are made from. */
  lemma TypeFormsAgree(v: StateView, entries: Entries, mods: nat -> Module, types: seq<TypeSection>, v': StateView, ntid: int)
    requires IsBuild(v, entries, mods, types) && FinalView(v, types, v')
    ensures ReloadedType(DigestOf(types), v', mods, ntid) == BuiltType(types, ntid)
  {
    hide Lookup, Collected;
    LookupDigest(types, ntid);
    var r := Lookup(types, ByNtid, ntid);
    if r.Some? {
      var t := r.value;
      assert TypeOk(v, entries, mods, t);
      assert DigestHashes(DigestOfSections(t.sections)) == SectionHashes(t.sections);
    }
  }

  /** What is asked of a built section by type and network: every updated network has its own section, and says of itself
      how many messages were sent, the root of their hashes, the section before and the hash over all that; a network
      that was not updated has none. */
  lemma BuiltShows(v: StateView, entries: Entries, mods: nat -> Module, types: seq<TypeSection>, nid: int)
    requires IsBuild(v, entries, mods, types) && AllSized(mods)
    ensures nid in entries ==>
      && Resolves(v, nid) && BuiltNetwork(types, v.networks[nid].ntid, nid).Some?
      && var nw, msgs, x := v.networks[nid], entries[nid], BuiltNetwork(types, v.networks[nid].ntid, nid).value;
         var mod := mods(v.types[nw.ntid].uid);
      && x.nid == nid && x.count == |msgs| && x.prev == nw.last && x.changed == nw.changed && x.firstSN == x.updateNumber / 2
      && x.root == MerkleRoot(mod.hash, Hashes(mod, msgs)) && (x.updateNumber / 2 - (nw.nextSN - |msgs|)) % TWO63 == 0
      && x.hash == Some(mod.sectionHash(Format(nid, x.updateNumber, nw.last, |msgs|, x.root)))
    ensures nid !in entries ==> forall ntid :: BuiltNetwork(types, ntid, nid).None?
  {
    hide Lookup, UpdateNumber, Sorted, MerkleRoot;
    if nid in entries {
      var ntid := v.networks[nid].ntid;
      var mod := mods(v.types[ntid].uid);
      var t :| t in types && t.ntid == ntid;
      var s := Wanted(v, entries, mods, nid);
      assert TypeOk(v, entries, mods, t) && s in t.sections && Sized(mod);
      Found(types, ByNtid, t);
      Found(t.sections, ByNid, s);
      SectionSays(nid, v.networks[nid], entries[nid], mod);
      HalfOfUpdate(v.networks[nid], |entries[nid]|);
    }
  }

  /** ... and of a type: the row of hashes has one for each updated network of the type, with the root, the context and
      the hash over both. */
  lemma BuiltTypeShows(v: StateView, entries: Entries, mods: nat -> Module, types: seq<TypeSection>, ntid: int)
    requires IsBuild(v, entries, mods, types)
    ensures var x := BuiltType(types, ntid);
      && (x.Some? <==> exists nid :: nid in entries && Resolves(v, nid) && v.networks[nid].ntid == ntid)
      && (x.Some? ==>
            && ntid in v.types && x.value.ntid == ntid && var mod := mods(v.types[ntid].uid);
            && mod.contextHash(v.types[ntid].context) == Some(x.value.contextHash)
            && x.value.root == MerkleRoot(mod.hash, x.value.row) && x.value.row != []
            && x.value.hash == mod.typeHash(TypeFormat(x.value.contextHash, x.value.root))
            && (forall nid :: nid in entries && Resolves(v, nid) && v.networks[nid].ntid == ntid ==> Wanted(v, entries, mods, nid).hash in x.value.row))
  {
    hide Lookup, Wanted, Sorted, MerkleRoot;
    var r := Lookup(types, ByNtid, ntid);
    if r.Some? {
      var t := r.value;
      assert TypeOk(v, entries, mods, t);
      assert t.sections[0] in t.sections;
      forall nid | nid in entries && Resolves(v, nid) && v.networks[nid].ntid == ntid
        ensures Wanted(v, entries, mods, nid).hash in SectionHashes(t.sections)
      {
        var i :| 0 <= i < |t.sections| && t.sections[i] == Wanted(v, entries, mods, nid);
        assert SectionHashes(t.sections)[i] == t.sections[i].hash;
      }
    }
  }

  /** First sequence numbers that fit in 63 bits. */
  ghost predicate AllFit(v: StateView, types: seq<TypeSection>) {
    forall t, s :: t in types && s in t.sections && s.nid in v.networks ==>
      Fits(Int64(v.networks[s.nid].nextSN - s.Count()))
  }

  lemma NetworkFormsAgree(v: StateView, entries: Entries, mods: nat -> Module, types: seq<TypeSection>, v': StateView,
                          lists: map<Key, Bytes>, t: TypeSection, s: Section)
    requires IsBuild(v, entries, mods, types) && AllSized(mods) && FinalView(v, types, v')
    requires Kept(lists, types) && AllFit(v, types) && t in types && s in t.sections
    ensures s.nid in v'.networks
    ensures ShownFromDigest(v'.networks[s.nid], DigestOfSection(s), Stored(lists, t.uid, s.root)) == ShownBuilt(s)
  {
    hide IsBuild, ShownBuilt, ShownFromDigest;
    BuiltSection(v, entries, mods, types, t, s);
    ReloadedAgreesIff(v, entries, mods, types, v', t, s, Stored(lists, t.uid, s.root));
  }

  /** The two forms agree: what was built and what is reloaded from the digest, the stored lists and the final state
      show the same of every network, and lack the same ones. */
  lemma FormsAgree(v: StateView, entries: Entries, mods: nat -> Module, types: seq<TypeSection>, v': StateView,
                   lists: map<Key, Bytes>, ntid: int, nid: int)
    requires IsBuild(v, entries, mods, types) && AllSized(mods) && FinalView(v, types, v')
    requires Kept(lists, types) && AllFit(v, types)
    ensures ReloadedNetwork(DigestOf(types), v', mods, lists, ntid, nid) == BuiltNetwork(types, ntid, nid)
  {
    hide Lookup, ShownBuilt, ShownFromDigest, TypeOk, AllSized, Kept, AllFit, Stored;
    LookupDigest(types, ntid);
    TypeFormsAgree(v, entries, mods, types, v', ntid);
    var r := Lookup(types, ByNtid, ntid);
    if r.Some? {
      var t := r.value;
      BuiltTypeFacts(v, entries, mods, types, t);
      LookupNetworkDigest(t.sections, nid);
      var q := Lookup(t.sections, ByNid, nid);
      if q.Some? {
        NetworkFormsAgree(v, entries, mods, types, v', lists, t, q.value);
      }
    }
  }

  /** After storing, every message is read back under its hash if the hash has no collisions. */
  lemma MessagesKept(v: StateView, entries: Entries, mods: nat -> Module, types: seq<TypeSection>, data: map<Key, Bytes>,
                     t: TypeSection, s: Section, i: nat)
    requires IsBuild(v, entries, mods, types) && AllSized(mods)
    requires t in types && s in t.sections && i < |s.messages| && CollisionFree(mods(t.uid).hash)
    ensures AllPaired(types) && Paired(s)
    ensures (t.uid, Cell(s.hashes, i)) in Apply(data, AllData(types))
      && Apply(data, AllData(types))[(t.uid, Cell(s.hashes, i))] == s.messages[i]
  {
    hide IsBuild, Apply, AllData, AllSized, CollisionFree;
    BuiltPaired(v, entries, mods, types);
    assert Paired(s);
    var p, puts := ((t.uid, Cell(s.hashes, i)), s.messages[i]), AllData(types);
    assert IsMessage(t.uid, s, p);
    AllDataAre(types, p);
    var a :| 0 <= a < |puts| && puts[a] == p;
    ApplyHas(data, puts, a);
    var b :| 0 <= b < |puts| && puts[b].0 == p.0 && puts[b].1 == Apply(data, puts)[p.0];
    AllDataAre(types, puts[b]);
    var t', s' :| t' in types && s' in t'.sections && IsMessage(t'.uid, s', puts[b]);
    assert Paired(s');
    var j :| 0 <= j < |s'.messages| && puts[b] == ((t'.uid, Cell(s'.hashes, j)), s'.messages[j]);
    HashedMessage(v, entries, mods, types, t, s, i);
    HashedMessage(v, entries, mods, types, t', s', j);
    OneMessage(mods(t.uid).hash, s.messages[i], s'.messages[j]);
  }

  lemma OneMessage(hash: Bytes -> Bytes, a: Bytes, b: Bytes)
    requires CollisionFree(hash) && hash(a) == hash(b)
    ensures a == b
  {
  }

  lemma HashedMessage(v: StateView, entries: Entries, mods: nat -> Module, types: seq<TypeSection>, t: TypeSection, s: Section, i: nat)
    requires IsBuild(v, entries, mods, types) && AllSized(mods) && t in types && s in t.sections && i < |s.messages|
    ensures Paired(s) && Cell(s.hashes, i) == mods(t.uid).hash(s.messages[i])
  {
    hide Sorted, UpdateNumber;
    assert TypeOk(v, entries, mods, t) && s == Wanted(v, entries, mods, s.nid);
    var mod := mods(t.uid);
    assert Sized(mod);
    CatRow(Hashes(mod, s.messages));
    assert Row(s.hashes)[i] == Cell(s.hashes, i);
  }

  /** Lists of one kind of module with the same root are equally long. */
  ghost predicate CountsAgree(types: seq<TypeSection>) {
    forall t, s, t', s' :: t in types && s in t.sections && t' in types && s' in t'.sections ==>
      (s.root.Some? && s.root == s'.root && t.uid == t'.uid ==> s.Count() == s'.Count())
  }

  /** A section as it was built, and the state before and after. */
  datatype Block = Block(view: StateView, entries: Entries, types: seq<TypeSection>, after: StateView)

  ghost predicate Blocks(mods: nat -> Module, blocks: seq<Block>) {
    forall i :: 0 <= i < |blocks| ==>
      IsBuild(blocks[i].view, blocks[i].entries, mods, blocks[i].types) && FinalView(blocks[i].view, blocks[i].types, blocks[i].after)
  }

  function Sections(blocks: seq<Block>): (r: seq<seq<TypeSection>>) {
    seq(|blocks|, i requires 0 <= i < |blocks| => blocks[i].types)
  }

  /** Whatever network is asked for, the reloaded form answers as the built one. */
  ghost predicate Reloads(mods: nat -> Module, lists: map<Key, Bytes>, b: Block) {
    forall ntid, nid :: ReloadedNetwork(DigestOf(b.types), b.after, mods, lists, ntid, nid) == BuiltNetwork(b.types, ntid, nid)
  }

  /** What is stored under a root is one of the lists with that root. */
  lemma StoredIsListed(lists: map<Key, Bytes>, types: seq<TypeSection>, t: TypeSection, s: Section) returns (t': TypeSection, s': Section)
    requires t in types && s in t.sections && s.root.Some?
    ensures t' in types && s' in t'.sections && t'.uid == t.uid && s'.root == s.root
    ensures Stored(Apply(lists, AllLists(types)), t.uid, s.root) == s'.hashes
  {
    hide Apply, AllLists;
    var p, puts := ((t.uid, s.root.value), s.hashes), AllLists(types);
    AllListsAre(types, p);
    var i :| 0 <= i < |puts| && puts[i] == p;
    ApplyHas(lists, puts, i);
    var j :| 0 <= j < |puts| && puts[j].0 == p.0 && puts[j].1 == Apply(lists, puts)[p.0];
    AllListsAre(types, puts[j]);
    t', s' :| t' in types && s' in t'.sections && s'.root == Some(puts[j].0.1) && t'.uid == puts[j].0.0 && s'.hashes == puts[j].1;
  }

  /** A section of a block, asked for by its ids, in both forms. */
  lemma AskedFor(v: StateView, entries: Entries, mods: nat -> Module, types: seq<TypeSection>, v': StateView,
                 lists: map<Key, Bytes>, t: TypeSection, s: Section)
    requires IsBuild(v, entries, mods, types) && AllSized(mods) && FinalView(v, types, v') && t in types && s in t.sections
    ensures s.nid in v'.networks && BuiltNetwork(types, t.ntid, s.nid) == Some(ShownBuilt(s))
    ensures ReloadedNetwork(DigestOf(types), v', mods, lists, t.ntid, s.nid) ==
      Some(ShownFromDigest(v'.networks[s.nid], DigestOfSection(s), Stored(lists, t.uid, s.root)))
  {
    hide Lookup, ShownBuilt, ShownFromDigest, Stored, AllSized;
    BuiltSection(v, entries, mods, types, t, s);
    BuiltTypeFacts(v, entries, mods, types, t);
    Found(types, ByNtid, t);
    Found(t.sections, ByNid, s);
    LookupDigest(types, t.ntid);
    LookupNetworkDigest(t.sections, s.nid);
    TypeFormsAgree(v, entries, mods, types, v', t.ntid);
  }

  lemma Found<T>(list: seq<T>, key: T -> int, x: T)
    requires Sorted(list, key) && x in list
    ensures Lookup(list, key, key(x)) == Some(x)
  {
    var i :| 0 <= i < |list| && list[i] == x;
    LookupAt(list, key, i);
  }

  /** One section is reloaded as built, after all blocks are stored, if lists with its root are as long as its own and its
      first number fits; and only then, if they are equally long among themselves. */
  lemma SectionReloads(mods: nat -> Module, lists: map<Key, Bytes>, blocks: seq<Block>, i: nat, t: TypeSection, s: Section)
    returns (t': TypeSection, s': Section)
    requires Blocks(mods, blocks) && AllSized(mods) && i < |blocks| && t in blocks[i].types && s in t.sections
    ensures s.nid in blocks[i].view.networks && s.nid in blocks[i].after.networks
    ensures s.root.Some? ==> t' in AllTypes(Sections(blocks)) && s' in t'.sections && t'.uid == t.uid && s'.root == s.root
    ensures ShownFromDigest(blocks[i].after.networks[s.nid], DigestOfSection(s), Stored(FlushedAll(lists, Sections(blocks)), t.uid, s.root)) == ShownBuilt(s)
      <==> (s.root.Some? ==> s'.Count() == s.Count()) && Fits(Int64(blocks[i].view.networks[s.nid].nextSN - s.Count()))
  {
    hide IsBuild, FinalView, AllSized, ShownBuilt, ShownFromDigest, Fits;
    var b := blocks[i];
    var after := FlushedAll(lists, Sections(blocks));
    FlushedAllIs(lists, Sections(blocks));
    BuiltSection(b.view, b.entries, mods, b.types, t, s);
    ReloadedAgreesIff(b.view, b.entries, mods, b.types, b.after, t, s, Stored(after, t.uid, s.root));
    t', s' := t, s;
    if s.root.Some? {
      assert Sections(blocks)[i] == b.types;
      InSomeBlock(Sections(blocks), t);
      t', s' := StoredIsListed(lists, AllTypes(Sections(blocks)), t, s);
    }
  }

  /** Exactly when all that was stored is reloaded as it was built, over any number of blocks: lists that share a root,
      in one block or in several, are equally long, and first sequence numbers fit in 63 bits. */
  lemma {:induction false} StoredFormsAgreeIff(mods: nat -> Module, lists: map<Key, Bytes>, blocks: seq<Block>)
    requires Blocks(mods, blocks) && AllSized(mods)
    ensures (forall i :: 0 <= i < |blocks| ==> Reloads(mods, FlushedAll(lists, Sections(blocks)), blocks[i]))
      <==> CountsAgree(AllTypes(Sections(blocks))) && forall i :: 0 <= i < |blocks| ==> AllFit(blocks[i].view, blocks[i].types)
  {
    hide IsBuild, FinalView, AllSized, Reloads, CountsAgree, AllFit, FlushedAll, AllTypes, Sections;
    var after := FlushedAll(lists, Sections(blocks));
    if CountsAgree(AllTypes(Sections(blocks))) && forall i :: 0 <= i < |blocks| ==> AllFit(blocks[i].view, blocks[i].types) {
      forall i | 0 <= i < |blocks| ensures Reloads(mods, after, blocks[i]) { BlockReloads(mods, lists, blocks, i); }
    }
    if forall i :: 0 <= i < |blocks| ==> Reloads(mods, after, blocks[i]) {
      forall i | 0 <= i < |blocks| ensures AllFit(blocks[i].view, blocks[i].types) { BlockFits(mods, lists, blocks, i); }
      ReloadedCountsAgree(mods, lists, blocks);
    }
  }

  lemma BlockReloads(mods: nat -> Module, lists: map<Key, Bytes>, blocks: seq<Block>, i: nat)
    requires Blocks(mods, blocks) && AllSized(mods) && i < |blocks|
    requires CountsAgree(AllTypes(Sections(blocks))) && AllFit(blocks[i].view, blocks[i].types)
    ensures Reloads(mods, FlushedAll(lists, Sections(blocks)), blocks[i])
  {
    hide IsBuild, FinalView, AllSized, ShownBuilt, ShownFromDigest, FlushedAll, BuiltNetwork, ReloadedNetwork, Fits;
    var b, after := blocks[i], FlushedAll(lists, Sections(blocks));
    forall ntid, nid ensures ReloadedNetwork(DigestOf(b.types), b.after, mods, after, ntid, nid) == BuiltNetwork(b.types, ntid, nid) {
      var t, s := Answered(b.view, b.entries, mods, b.types, b.after, after, ntid, nid);
      if BuiltNetwork(b.types, ntid, nid).Some? {
        assert Sections(blocks)[i] == b.types;
        InSomeBlock(Sections(blocks), t);
        var t', s' := SectionReloads(mods, lists, blocks, i, t, s);
      }
    }
  }

  /** An answer in either form is about a section that was built. */
  lemma Answered(v: StateView, entries: Entries, mods: nat -> Module, types: seq<TypeSection>, v': StateView,
                 lists: map<Key, Bytes>, ntid: int, nid: int) returns (t: TypeSection, s: Section)
    requires IsBuild(v, entries, mods, types) && AllSized(mods) && FinalView(v, types, v')
    ensures BuiltNetwork(types, ntid, nid).None? ==> ReloadedNetwork(DigestOf(types), v', mods, lists, ntid, nid).None?
    ensures BuiltNetwork(types, ntid, nid).Some? ==>
      && t in types && s in t.sections && s.nid in v'.networks && BuiltNetwork(types, ntid, nid) == Some(ShownBuilt(s))
      && ReloadedNetwork(DigestOf(types), v', mods, lists, ntid, nid) ==
           Some(ShownFromDigest(v'.networks[s.nid], DigestOfSection(s), Stored(lists, t.uid, s.root)))
  {
    hide Lookup, ShownBuilt, ShownFromDigest, Stored, AllSized, TypeOk;
    LookupDigest(types, ntid);
    TypeFormsAgree(v, entries, mods, types, v', ntid);
    t, s := *, *;
    var r := Lookup(types, ByNtid, ntid);
    if r.Some? {
      t := r.value;
      BuiltTypeFacts(v, entries, mods, types, t);
      LookupNetworkDigest(t.sections, nid);
      var q := Lookup(t.sections, ByNid, nid);
      if q.Some? {
        s := q.value;
        BuiltSection(v, entries, mods, types, t, s);
        AskedFor(v, entries, mods, types, v', lists, t, s);
      }
    }
  }

  lemma BlockFits(mods: nat -> Module, lists: map<Key, Bytes>, blocks: seq<Block>, i: nat)
    requires Blocks(mods, blocks) && AllSized(mods) && i < |blocks|
    requires Reloads(mods, FlushedAll(lists, Sections(blocks)), blocks[i])
    ensures AllFit(blocks[i].view, blocks[i].types)
  {
    hide IsBuild, FinalView, AllSized, ShownBuilt, ShownFromDigest, FlushedAll, BuiltNetwork, ReloadedNetwork, Fits;
    var b, after := blocks[i], FlushedAll(lists, Sections(blocks));
    forall t, s | t in b.types && s in t.sections ensures s.nid in b.view.networks && Fits(Int64(b.view.networks[s.nid].nextSN - s.Count())) {
      AskedFor(b.view, b.entries, mods, b.types, b.after, after, t, s);
      var t', s' := SectionReloads(mods, lists, blocks, i, t, s);
    }
  }

  lemma ReloadedCountsAgree(mods: nat -> Module, lists: map<Key, Bytes>, blocks: seq<Block>)
    requires Blocks(mods, blocks) && AllSized(mods)
    requires forall i :: 0 <= i < |blocks| ==> Reloads(mods, FlushedAll(lists, Sections(blocks)), blocks[i])
    ensures CountsAgree(AllTypes(Sections(blocks)))
  {
    hide IsBuild, FinalView, AllSized, Reloads, FlushedAll, AllTypes;
    forall t, s, t', s' | t in AllTypes(Sections(blocks)) && s in t.sections && t' in AllTypes(Sections(blocks)) && s' in t'.sections
        && s.root.Some? && s.root == s'.root && t.uid == t'.uid
      ensures s.Count() == s'.Count()
    {
      CountIsStored(mods, lists, blocks, t, s);
      CountIsStored(mods, lists, blocks, t', s');
    }
  }

  lemma CountIsStored(mods: nat -> Module, lists: map<Key, Bytes>, blocks: seq<Block>, t: TypeSection, s: Section)
    requires Blocks(mods, blocks) && AllSized(mods) && t in AllTypes(Sections(blocks)) && s in t.sections
    requires forall i :: 0 <= i < |blocks| ==> Reloads(mods, FlushedAll(lists, Sections(blocks)), blocks[i])
    ensures s.Count() == |Stored(FlushedAll(lists, Sections(blocks)), t.uid, s.root)| / HASH_LEN
  {
    hide IsBuild, FinalView, AllSized, FlushedAll, AllTypes, BuiltNetwork, ReloadedNetwork, Stored;
    var after := FlushedAll(lists, Sections(blocks));
    InSomeBlock(Sections(blocks), t);
    var i :| 0 <= i < |Sections(blocks)| && t in Sections(blocks)[i];
    var b := blocks[i];
    AskedFor(b.view, b.entries, mods, b.types, b.after, after, t, s);
    assert Reloads(mods, after, b);
  }

  /** Two networks of one type. */
  function TwoNetworks(uid: nat, context: Bytes): StateView {
    StateView(map[1 := NetworkView(7, 2, false, None, None), 2 := NetworkView(7, 1, false, None, None)], map[7 := TypeView(uid, context)])
  }

  /** Two messages for the first, and for the second the one message made of their hashes. */
  function TwoLists(mod: Module, a: Bytes, b: Bytes): Entries { map[1 := [a, b], 2 := [mod.hash(a) + mod.hash(b)]] }

  lemma TwoSections(mods: nat -> Module, uid: nat, context: Bytes, a: Bytes, b: Bytes) returns (s: Section, s': Section)
    requires AllSized(mods)
    ensures var v, entries := TwoNetworks(uid, context), TwoLists(mods(uid), a, b);
      && Resolves(v, 1) && Resolves(v, 2) && v.networks.Keys == {1, 2} && entries.Keys == {1, 2}
      && s == Wanted(v, entries, mods, 1) && s' == Wanted(v, entries, mods, 2)
    ensures s.nid == 1 && s'.nid == 2 && s.root.Some? && s.root == s'.root && s.Count() == 2 && s'.Count() == 1
  {
    hide SectionOf;
    var v, entries, mod := TwoNetworks(uid, context), TwoLists(mods(uid), a, b), mods(uid);
    assert Sized(mod);
    s, s' := Wanted(v, entries, mods, 1), Wanted(v, entries, mods, 2);
    SharedRoot(1, v.networks[1], 2, v.networks[2], a, b, mod);
  }

  /** A build in which two lists share a root. It meets all that the theorem before asks for but one, so it is not
      reloaded as it was built, whatever was stored before. */
  lemma {:induction false} SharedRootBuilt(mods: nat -> Module, uid: nat, context: Bytes, a: Bytes, b: Bytes) returns (block: Block)
    requires AllSized(mods) && mods(uid).contextHash(context).Some?
    ensures block.view == TwoNetworks(uid, context) && block.entries == TwoLists(mods(uid), a, b) && Blocks(mods, [block])
    ensures AllFit(block.view, block.types) && !CountsAgree(block.types)
    ensures forall lists :: !Reloads(mods, FlushedAll(lists, Sections([block])), block)
  {
    hide Wanted, FlushedAll, SectionOf, IsBuild, FinalView, AllFit, CountsAgree, Reloads, AllTypes, TypeSectionOf;
    var v, entries := TwoNetworks(uid, context), TwoLists(mods(uid), a, b);
    var s, s' := TwoSections(mods, uid, context, a, b);
    var t := SomeType(v.types[7], s, s', mods(uid));
    var v' := StateView(map[1 := v.networks[1].(last := Some(s.hash)), 2 := v.networks[2].(last := Some(s'.hash))], v.types);
    block := Block(v, entries, [t], v');
    OneTypeBuild(v, entries, mods, t, s, s');
    TwoFinal(v, t, s, s', v');
    TwoDiffer(t, s, s');
    OneBlock(block);
    forall lists ensures !Reloads(mods, FlushedAll(lists, Sections([block])), block) { StoredFormsAgreeIff(mods, lists, [block]); }
  }

  lemma SomeType(nt: TypeView, s: Section, s': Section, mod: Module) returns (t: TypeSection)
    requires mod.contextHash(nt.context).Some?
    ensures TypeSectionOf(7, nt, [s, s'], AnyChanged([s, s']), mod) == Some(t) && t.ntid == 7 && t.sections == [s, s']
  {
    t := TypeSectionOf(7, nt, [s, s'], AnyChanged([s, s']), mod).value;
  }

  lemma TwoFinal(v: StateView, t: TypeSection, s: Section, s': Section, v': StateView)
    requires v.networks.Keys == {1, 2} && t.sections == [s, s'] && s.nid == 1 && s'.nid == 2
    requires v.networks[1] == NetworkView(7, 2, false, None, None) && v.networks[2] == NetworkView(7, 1, false, None, None)
    requires s.Count() == 2 && s'.Count() == 1
    requires v' == StateView(map[1 := v.networks[1].(last := Some(s.hash)), 2 := v.networks[2].(last := Some(s'.hash))], v.types)
    ensures FinalView(v, [t], v') && AllFit(v, [t])
  {
    assert forall x :: x in t.sections <==> x == s || x == s';
  }

  lemma TwoDiffer(t: TypeSection, s: Section, s': Section)
    requires t.sections == [s, s'] && s.root.Some? && s.root == s'.root && s.Count() != s'.Count()
    ensures !CountsAgree([t])
  {
    assert t in [t] && s in t.sections && s' in t.sections;
  }

  lemma OneBlock(block: Block)
    ensures AllTypes(Sections([block])) == block.types
  {
    assert Sections([block]) == [block.types] && [block.types][..0] == [];
  }

  lemma OneTypeBuild(v: StateView, entries: Entries, mods: nat -> Module, t: TypeSection, s: Section, s': Section)
    requires entries.Keys == {1, 2} && Resolves(v, 1) && Resolves(v, 2) && v.networks[1].ntid == v.networks[2].ntid == t.ntid
    requires s == Wanted(v, entries, mods, 1) && s' == Wanted(v, entries, mods, 2) && t.sections == [s, s']
    requires TypeSectionOf(t.ntid, v.types[t.ntid], [s, s'], AnyChanged([s, s']), mods(v.types[t.ntid].uid)) == Some(t)
    ensures IsBuild(v, entries, mods, [t])
  {
    hide Wanted, TypeSectionOf;
    assert Collected(v, entries, mods, entries.Keys, t.ntid, [s, s']);
    assert TypeOk(v, entries, mods, t);
    assert t in [t];
  }

  /** When two lists of different length share a root, one of the two sections is not reloaded as it was built,
      whatever is stored. */
  lemma SharedRootLoses(v: StateView, entries: Entries, mods: nat -> Module, types: seq<TypeSection>, v': StateView,
                        lists: map<Key, Bytes>, t: TypeSection, s: Section, t': TypeSection, s': Section)
    requires IsBuild(v, entries, mods, types) && AllSized(mods) && FinalView(v, types, v')
    requires t in types && s in t.sections && t' in types && s' in t'.sections
    requires t.uid == t'.uid && s.root == s'.root && s.Count() != s'.Count()
    ensures s.nid in v'.networks && s'.nid in v'.networks
    ensures ShownFromDigest(v'.networks[s.nid], DigestOfSection(s), Stored(lists, t.uid, s.root)) != ShownBuilt(s)
      || ShownFromDigest(v'.networks[s'.nid], DigestOfSection(s'), Stored(lists, t'.uid, s'.root)) != ShownBuilt(s')
  {
    hide IsBuild, FinalView, AllSized, ShownBuilt, ShownFromDigest;
    ReloadedAgreesIff(v, entries, mods, types, v', t, s, Stored(lists, t.uid, s.root));
    ReloadedAgreesIff(v, entries, mods, types, v', t', s', Stored(lists, t'.uid, s'.root));
  }

  lemma BuiltTypeFacts(v: StateView, entries: Entries, mods: nat -> Module, types: seq<TypeSection>, t: TypeSection)
    requires IsBuild(v, entries, mods, types) && t in types
    ensures t.ntid in v.types && t.uid == v.types[t.ntid].uid && Sorted(t.sections, ByNid)
  {
    assert TypeOk(v, entries, mods, t);
  }

  /** A section reloaded from its digest; type sections are made when first asked for. */
  class ReloadedSection {
    const digest: seq<TypeDigest>
    const view: StateView
    const mods: nat -> Module
    var made: map<int, TypeShown>

    constructor (digest: seq<TypeDigest>, view: StateView, mods: nat -> Module)
      ensures Valid() && this.digest == digest && this.view == view && this.mods == mods
    {
      this.digest, this.view, this.mods, made := digest, view, mods, map[];
    }

    ghost predicate Valid()
      reads this
    {
      forall ntid :: ntid in made ==> ReloadedType(digest, view, mods, ntid) == Some(made[ntid])
    }

    method NetworkTypeSectionFor(ntid: int) returns (r: Option<TypeShown>)
      requires Valid() && Sorted(digest, ByDigestNtid)
      modifies this
      ensures Valid() && r == ReloadedType(digest, view, mods, ntid)
    {
      if ntid !in made {
        if ntid !in view.types { return None; }
        var mod := mods(view.types[ntid].uid);
        var ctx := mod.contextHash(view.types[ntid].context);
        if ctx.None? { return None; }
        var d := Search(digest, ByDigestNtid, ntid);
        if d.None? { return None; }
        var row := DigestHashes(d.value.networks);
        var root := ComputeRoot(mod.hash, row);
        made := made[ntid := TypeShown(d.value.ntid, d.value.hash, root, ctx.value, row)];
      }
      return Some(made[ntid]);
    }
  }
}
