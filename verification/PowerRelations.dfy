/**
  The adapter's list of power dependencies, an intrusive circular doubly linked list whose
  entries each own a reference to a physical device object, and the DEVICE_RELATIONS merge
  that answers a power-relations query with it. The fast mutex makes each operation atomic.
*/
module PowerRelations {

  import opened References

  type Pdo = Id

  /** The list without the entries for p, in order. */
  function Without(ps: seq<Pdo>, p: Pdo): seq<Pdo> {
    if ps == [] then [] else (if ps[0] == p then [] else [ps[0]]) + Without(ps[1..], p)
  }

  /** Removing drops all and only the entries for p. */
  lemma {:induction false} WithoutOccurrences(ps: seq<Pdo>, p: Pdo, q: Pdo)
    ensures Occurrences(Without(ps, p), q) == if q == p then 0 else Occurrences(ps, q)
    ensures |ps| == |Without(ps, p)| + Occurrences(ps, p)
  {
    if ps == [] {
    } else {
      WithoutOccurrences(ps[1..], p, q);
      OccurrencesAppend(if ps[0] == p then [] else [ps[0]], Without(ps[1..], p), q);
    }
  }

  // ---------- the list ----------

  /** A LIST_ENTRY with the device object it stands for; the list head is one whose object is unused. */
  class Entry {
    var flink: Entry
    var blink: Entry
    const pdo: Pdo

    /** InitializeListHead */
    constructor (pdo: Pdo)
      ensures flink == this && blink == this && this.pdo == pdo
    {
      this.pdo := pdo;
      flink := this;
      blink := this;
    }
  }

  function Pdos(nodes: seq<Entry>): (r: seq<Pdo>)
    ensures |r| == |nodes|
  {
    if nodes == [] then [] else [nodes[0].pdo] + Pdos(nodes[1..])
  }

  /** The entries that are kept when those for p are removed. */
  function Kept(nodes: seq<Entry>, p: Pdo): seq<Entry> {
    if nodes == [] then [] else (if nodes[0].pdo == p then [] else [nodes[0]]) + Kept(nodes[1..], p)
  }

  lemma {:induction false} PdosAt(nodes: seq<Entry>, k: nat)
    requires k < |nodes|
    ensures Pdos(nodes)[k] == nodes[k].pdo
  {
    if k > 0 {
      PdosAt(nodes[1..], k - 1);
    }
  }

  lemma {:induction false} PdosAppend(nodes: seq<Entry>, e: Entry)
    ensures Pdos(nodes + [e]) == Pdos(nodes) + [e.pdo]
  {
    if nodes != [] {
      assert (nodes + [e])[1..] == nodes[1..] + [e];
      PdosAppend(nodes[1..], e);
    }
  }

  lemma {:induction false} OneMoreEntry(nodes: seq<Entry>, k: nat, was: seq<Pdo>, c: Counts)
    requires k < |nodes|
    ensures was + Pdos(nodes)[..k + 1] == was + Pdos(nodes)[..k] + [nodes[k].pdo]
    ensures ReferenceAll(c, Pdos(nodes)[..k + 1], 1) == Reference(ReferenceAll(c, Pdos(nodes)[..k], 1), nodes[k].pdo, 1)
  {
    PdosAt(nodes, k);
    ReferenceOneMore(c, Pdos(nodes), k, 1);
  }

  /** Removing keeps the other objects, in order. */
  lemma {:induction false} KeptPdos(nodes: seq<Entry>, p: Pdo)
    ensures Pdos(Kept(nodes, p)) == Without(Pdos(nodes), p)
  {
    if nodes == [] {
    } else {
      var rest := Kept(nodes[1..], p);
      KeptPdos(nodes[1..], p);
      if nodes[0].pdo == p {
        assert Kept(nodes, p) == rest;
      } else {
        assert Kept(nodes, p)[1..] == rest;
      }
    }
  }

  /** The entry after and the entry before position i of the ring; the head stands at both ends. */
  function Next(head: Entry, nodes: seq<Entry>, i: int): Entry {
    if 0 <= i + 1 < |nodes| then nodes[i + 1] else head
  }

  function Prev(head: Entry, nodes: seq<Entry>, i: int): Entry {
    if 0 <= i - 1 < |nodes| then nodes[i - 1] else head
  }

  predicate Distinct(nodes: seq<Entry>) {
    forall i, j :: 0 <= i < j < |nodes| ==> nodes[i] != nodes[j]
  }

  /** The links of a list head and its entries, one way. */
  type Links = map<Entry, Entry>

  predicate Points(links: Links, from: Entry, to: Entry) {
    from in links && links[from] == to
  }

  /** Following f from the head visits the entries in order and comes back. */
  predicate Forward(head: Entry, nodes: seq<Entry>, f: Links) {
    && Points(f, head, Next(head, nodes, -1))
    && forall i {:trigger Next(head, nodes, i)} :: 0 <= i < |nodes| ==> Points(f, nodes[i], Next(head, nodes, i))
  }

  /** Following b from the head visits the entries in reverse order and comes back. */
  predicate Backward(head: Entry, nodes: seq<Entry>, b: Links) {
    && Points(b, head, Prev(head, nodes, |nodes|))
    && forall i {:trigger Prev(head, nodes, i)} :: 0 <= i < |nodes| ==> Points(b, nodes[i], Prev(head, nodes, i))
  }

  predicate Ring(head: Entry, nodes: seq<Entry>, f: Links, b: Links) {
    head !in nodes && Distinct(nodes) && Forward(head, nodes, f) && Backward(head, nodes, b)
  }

  /** The ring without the entry at position k. */
  function Cut(nodes: seq<Entry>, k: nat): (r: seq<Entry>)
    requires k < |nodes|
    ensures |r| == |nodes| - 1
    ensures forall i :: 0 <= i < |r| ==> r[i] == nodes[if i < k then i else i + 1]
  {
    nodes[..k] + nodes[k + 1..]
  }

  lemma {:induction false} CutDistinct(nodes: seq<Entry>, k: nat)
    requires k < |nodes| && Distinct(nodes)
    ensures Distinct(Cut(nodes, k)) && nodes[k] !in Cut(nodes, k)
    ensures forall n :: n in Cut(nodes, k) ==> n in nodes
  {
    assert nodes == nodes[..k] + [nodes[k]] + nodes[k + 1..];
  }

  /** RemoveEntryList, forward: the entry before k points past it. */
  lemma {:induction false} CutForward(head: Entry, nodes: seq<Entry>, k: nat, f: Links)
    requires k < |nodes| && head !in nodes && Distinct(nodes) && Forward(head, nodes, f)
    ensures Forward(head, Cut(nodes, k), f[Prev(head, nodes, k) := Next(head, nodes, k)])
  {
    var r, f' := Cut(nodes, k), f[Prev(head, nodes, k) := Next(head, nodes, k)];
    forall i | 0 <= i < |r| ensures Points(f', r[i], Next(head, r, i)) {
      var j := if i < k then i else i + 1;
      assert r[i] == nodes[j] && Points(f, nodes[j], Next(head, nodes, j));
    }
  }

  /** RemoveEntryList, backward: the entry after k points before it. */
  lemma {:induction false} CutBackward(head: Entry, nodes: seq<Entry>, k: nat, b: Links)
    requires k < |nodes| && head !in nodes && Distinct(nodes) && Backward(head, nodes, b)
    ensures Backward(head, Cut(nodes, k), b[Next(head, nodes, k) := Prev(head, nodes, k)])
  {
    var r, b' := Cut(nodes, k), b[Next(head, nodes, k) := Prev(head, nodes, k)];
    forall i | 0 <= i < |r| ensures Points(b', r[i], Prev(head, r, i)) {
      var j := if i < k then i else i + 1;
      assert r[i] == nodes[j] && Points(b, nodes[j], Prev(head, nodes, j));
      assert 0 < i ==> r[i - 1] == nodes[if i <= k then i - 1 else i];
    }
  }

  lemma {:induction false} CutRing(head: Entry, nodes: seq<Entry>, k: nat, f: Links, b: Links)
    requires k < |nodes| && Ring(head, nodes, f, b)
    ensures var prev := Prev(head, nodes, k); var next := Next(head, nodes, k);
      && Points(f, nodes[k], next) && Points(b, nodes[k], prev) && prev in f && next in b
      && Ring(head, Cut(nodes, k), f[prev := next], b[next := prev])
  {
    assert Points(f, nodes[k], Next(head, nodes, k)) && Points(b, nodes[k], Prev(head, nodes, k));
    assert 0 < k ==> Points(f, nodes[k - 1], Next(head, nodes, k - 1));
    assert k + 1 < |nodes| ==> Points(b, nodes[k + 1], Prev(head, nodes, k + 1));
    CutForward(head, nodes, k, f);
    CutBackward(head, nodes, k, b);
    CutDistinct(nodes, k);
  }

  /** InsertTailList: the old last entry and the head now point at the new one. */
  lemma {:induction false} TailLinked(head: Entry, nodes: seq<Entry>, e: Entry, f: Links, b: Links)
    requires Ring(head, nodes, f, b) && e !in nodes && e != head
    ensures Ring(head, nodes + [e], f[e := head][b[head] := e], b[e := b[head]][head := e])
    ensures b[head] in f
  {
    var n, r := |nodes|, nodes + [e];
    assert 0 < n ==> Points(f, nodes[n - 1], Next(head, nodes, n - 1));
    forall i | 0 <= i < n
      ensures (i < n - 1 ==> Points(f, r[i], Next(head, r, i))) && Points(b, r[i], Prev(head, r, i))
    {
      assert Points(f, nodes[i], Next(head, nodes, i)) && Points(b, nodes[i], Prev(head, nodes, i));
    }
  }

  /** Keeps the reference counts. */
  class ObjectManager {
    var counts: Counts

    constructor (counts: Counts)
      ensures this.counts == counts
    {
      this.counts := counts;
    }

    method ObReferenceObject(p: Pdo)
      modifies this
      ensures counts == Reference(old(counts), p, 1)
    {
      counts := Reference(counts, p, 1);
    }

    method ObDereferenceObject(p: Pdo)
      modifies this
      ensures counts == Reference(old(counts), p, -1)
    {
      counts := Reference(counts, p, -1);
    }
  }

  class PowerList {
    const head: Entry
    ghost var nodes: seq<Entry>
    ghost var repr: set<Entry>
    ghost var flinks: Links
    ghost var blinks: Links
    const objects: ObjectManager

    ghost predicate Valid()
      reads this, repr
    {
      Ring(head, nodes, flinks, blinks) && Mirrored()
    }

    /** The two maps hold what the entries' fields hold. */
    ghost predicate Mirrored()
      reads this, repr
    {
      && flinks.Keys <= repr && blinks.Keys <= repr
      && (forall n :: n in flinks ==> n.flink == flinks[n])
      && forall n :: n in blinks ==> n.blink == blinks[n]
    }

    ghost function Contents(): seq<Pdo>
      reads this
    {
      Pdos(nodes)
    }

    constructor (objects: ObjectManager)
      ensures Valid() && fresh(repr) && Contents() == [] && this.objects == objects
    {
      head := new Entry(0);
      nodes := [];
      repr := {head};
      flinks, blinks := map[head := head], map[head := head];
      this.objects := objects;
    }

    method InsertTailList(e: Entry)
      requires Valid() && e !in nodes && e != head
      modifies this`nodes, this`repr, this`flinks, this`blinks, repr, e
      ensures Valid() && nodes == old(nodes) + [e] && repr == old(repr) + {e}
    {
      TailLinked(head, nodes, e, flinks, blinks);
      nodes := nodes + [e];
      LinkAfter(head.blink, e);
    }

    /** Links e between last and the head. */
    method LinkAfter(last: Entry, e: Entry)
      requires Mirrored() && last in flinks && head in blinks
      modifies this`repr, this`flinks, this`blinks, repr, e
      ensures Mirrored() && repr == old(repr) + {e}
      ensures flinks == old(flinks)[e := head][last := e] && blinks == old(blinks)[e := last][head := e]
    {
      e.flink := head;
      e.blink := last;
      last.flink := e;
      head.blink := e;
      repr := repr + {e};
      flinks := flinks[e := head][last := e];
      blinks := blinks[e := last][head := e];
    }

    method RemoveEntryList(e: Entry, ghost k: nat)
      requires Valid() && k < |nodes| && nodes[k] == e
      modifies this`nodes, this`flinks, this`blinks, repr
      ensures Valid() && nodes == Cut(old(nodes), k)
    {
      CutRing(head, nodes, k, flinks, blinks);
      nodes := Cut(nodes, k);
      Bypass(e.blink, e.flink);
    }

    /** Makes prev and next point at each other. */
    method Bypass(prev: Entry, next: Entry)
      requires Mirrored() && prev in flinks && next in blinks
      modifies this`flinks, this`blinks, repr
      ensures Mirrored() && flinks == old(flinks)[prev := next] && blinks == old(blinks)[next := prev]
    {
      prev.flink := next;
      next.blink := prev;
      flinks := flinks[prev := next];
      blinks := blinks[next := prev];
    }

    /** A new entry at the end, owning a new reference; without memory nothing changes. */
    method AddDeviceAsPowerDependency(pdo: Pdo, allocOk: bool) returns (ok: bool)
      requires Valid()
      modifies this, repr, objects
      ensures Valid() && fresh(repr - old(repr)) && ok == allocOk
      ensures Contents() == old(Contents()) + if ok then [pdo] else []
      ensures objects.counts == if ok then Reference(old(objects.counts), pdo, 1) else old(objects.counts)
      ensures (objects.counts, Contents()) == AfterCall(old(objects.counts), old(Contents()), Add(pdo, allocOk))
    {
      if !allocOk {
        return false;
      }
      var e := new Entry(pdo);
      objects.ObReferenceObject(pdo);
      PdosAppend(nodes, e);
      InsertTailList(e);
      return true;
    }

    /** One entry of the walk: its successor is read before it may be unlinked. */
    method Visit(entry: Entry, pdo: Pdo, ghost kept: seq<Entry>, ghost rest: seq<Entry>, ghost before: Counts, ghost dropped: nat)
      returns (pe: Entry)
      requires Valid() && nodes == kept + [entry] + rest && objects.counts == Released(before, pdo, dropped)
      modifies this`nodes, this`flinks, this`blinks, objects, repr
      ensures Valid() && nodes == KeptWith(kept, entry, pdo) + rest && pe == if rest == [] then head else rest[0]
      ensures objects.counts == Released(before, pdo, DroppedWith(dropped, entry, pdo))
    {
      assert nodes[|kept|] == entry && Points(flinks, nodes[|kept|], Next(head, nodes, |kept|));
      pe := entry.flink;
      if entry.pdo == pdo {
        ReleasedOneMore(before, pdo, dropped);
        objects.ObDereferenceObject(entry.pdo);
        RemoveEntryList(entry, |kept|);
        assert nodes == kept + rest;
      }
    }

    /** Walks the ring once, unlinking and dereferencing every entry for pdo on the way. */
    method RemoveDeviceAsPowerDependency(pdo: Pdo)
      requires Valid()
      modifies this`nodes, this`flinks, this`blinks, objects, repr
      ensures Valid() && nodes == Kept(old(nodes), pdo) && Contents() == Without(old(Contents()), pdo)
      ensures objects.counts == Released(old(objects.counts), pdo, Occurrences(old(Contents()), pdo))
      ensures (objects.counts, Contents()) == AfterCall(old(objects.counts), old(Contents()), Remove(pdo))
    {
      var pe := head.flink;
      ghost var kept, rest, dropped := [], nodes, 0;
      while pe != head
        invariant Valid() && repr == old(repr) && nodes == kept + rest && pe == if rest == [] then head else rest[0]
        invariant Walked(old(nodes), pdo, kept, rest, dropped)
        invariant objects.counts == Released(old(objects.counts), pdo, dropped)
        decreases |rest|
      {
        WalkGoesOn(old(nodes), pdo, kept, rest, dropped);
        ghost var entry := pe;
        assert kept + rest == kept + [entry] + rest[1..];
        pe := Visit(pe, pdo, kept, rest[1..], old(objects.counts), dropped);
        kept, rest, dropped := KeptWith(kept, entry, pdo), rest[1..], DroppedWith(dropped, entry, pdo);
      }
      WalkEnds(old(nodes), pdo, kept, dropped);
    }

    method CountEntries() returns (n: nat)
      requires Valid()
      ensures n == |nodes|
    {
      n := 0;
      var pe := head.flink;
      while pe != head
        invariant n <= |nodes| && pe == Next(head, nodes, n - 1)
        decreases |nodes| - n
      {
        pe := pe.flink;
        n := n + 1;
      }
    }

    /** How far the appending has come: k entries' objects, each with a new reference, and pe is the next entry. */
    ghost predicate Appended(pe: Entry, r: Relations, was: seq<Pdo>, before: Counts, k: nat)
      reads this, objects, r, r.objects
    {
      && k <= |nodes| && pe == Next(head, nodes, k - 1)
      && r.Valid() && r.count == |was| + k && r.Listed() == was + Contents()[..k]
      && objects.counts == ReferenceAll(before, Contents()[..k], 1)
    }

    method AppendNext(pe: Entry, r: Relations, ghost was: seq<Pdo>, ghost before: Counts, ghost k: nat)
      returns (next: Entry)
      requires Valid() && Appended(pe, r, was, before, k) && k < |nodes| && |was| + |nodes| <= r.objects.Length
      modifies objects, r`count, r.objects
      ensures Appended(next, r, was, before, k + 1)
    {
      OneMoreEntry(nodes, k, was, before);
      next := pe.flink;
      r.Append(pe.pdo);
      objects.ObReferenceObject(pe.pdo);
    }

    /** Appends every entry's object, each with a new reference, after what is listed already. */
    method AppendEntries(r: Relations)
      requires Valid() && r.Valid() && r.count + |nodes| <= r.objects.Length
      modifies objects, r`count, r.objects
      ensures r.Valid() && r.Listed() == old(r.Listed()) + Contents()
      ensures objects.counts == ReferenceAll(old(objects.counts), Contents(), 1)
    {
      ghost var k := 0;
      ghost var was, before := r.Listed(), objects.counts;
      assert Contents()[..0] == [] && Contents()[..|nodes|] == Contents();
      var pe := head.flink;
      while pe != head
        invariant Appended(pe, r, was, before, k)
        decreases |nodes| - k
      {
        pe := AppendNext(pe, r, was, before, k);
        k := k + 1;
      }
    }

    /** Dereferences what is listed. */
    method DereferenceAll(r: Relations)
      requires r.Valid()
      modifies objects
      ensures objects.counts == ReferenceAll(old(objects.counts), r.Listed(), -1)
    {
      var i := 0;
      assert r.Listed()[..0] == [];
      while i < r.count
        invariant i <= r.count && objects.counts == ReferenceAll(old(objects.counts), r.Listed()[..i], -1)
      {
        ReferenceOneMore(old(objects.counts), r.Listed(), i, -1);
        objects.ObDereferenceObject(r.objects[i]);
        i := i + 1;
      }
      assert r.Listed()[..i] == r.Listed();
    }

    /** A new list with room for what was listed before and the n entries. */
    method MergedRelations(prior: Relations?, n: nat) returns (r: Relations)
      requires Valid() && n == |nodes| && (prior != null ==> prior.Valid())
      modifies objects
      ensures Valid() && fresh(r) && r.Valid()
      ensures r.Listed() == old(Listing(prior)) + Contents()
      ensures objects.counts == ReferenceAll(old(objects.counts), Contents(), 1)
    {
      var room := n;
      if prior != null {
        room := prior.count + n;
      }
      r := new Relations(room);
      if prior != null && prior.count > 0 {
        CopyRelations(prior, r);
      }
      AppendEntries(r);
    }

    /** The merged list; without memory there is none, and what was listed before is dereferenced. */
    method NewRelations(prior: Relations?, n: nat, allocOk: bool) returns (r: Relations?)
      requires Valid() && n == |nodes| && (prior != null ==> prior.Valid())
      modifies objects
      ensures allocOk ==>
                && r != null && fresh(r) && r.Valid()
                && r.Listed() == old(Listing(prior)) + Contents()
                && objects.counts == ReferenceAll(old(objects.counts), Contents(), 1)
      ensures !allocOk ==>
                r == null && objects.counts == ReferenceAll(old(objects.counts), old(Listing(prior)), -1)
    {
      if allocOk {
        r := MergedRelations(prior, n);
      } else {
        r := null;
        if prior != null {
          DereferenceAll(prior);
        }
      }
    }

    /**
      On success the IRP lists what it listed before, in order, and then the entries, each newly referenced.
      Without memory it lists nothing, and each object listed before is dereferenced. Either way a list that
      was replaced is freed once; with no entries nothing changes.
    */
    method UpdatePowerRelations(irp: Irp, allocOk: bool) returns (freed: Relations?)
      requires Valid() && (irp.information != null ==> irp.information.Valid())
      modifies irp, objects
      ensures Valid() && nodes == old(nodes)
      ensures nodes == [] ==>
                irp.status == Success && irp.information == old(irp.information) && objects.counts == old(objects.counts)
      ensures freed == if nodes == [] then null else old(irp.information)
      ensures nodes != [] && allocOk ==>
                && irp.status == Success && irp.information != null && fresh(irp.information) && irp.information.Valid()
                && irp.information.Listed() == old(Listing(irp.information)) + Contents()
                && objects.counts == ReferenceAll(old(objects.counts), Contents(), 1)
      ensures nodes != [] && !allocOk ==>
                && irp.status == InsufficientResources && irp.information == null
                && objects.counts == ReferenceAll(old(objects.counts), old(Listing(irp.information)), -1)
    {
      var n := CountEntries();
      if n == 0 {
        irp.status := Success;
        return null;
      }
      var prior := irp.information;
      irp.information := NewRelations(prior, n, allocOk);
      irp.status := if allocOk then Success else InsufficientResources;
      freed := prior;
    }
  }

  /** RtlCopyMemory of the used part of a list. */
  method CopyRelations(from: Relations, to: Relations)
    requires from.Valid() && from != to && from.objects != to.objects && from.count <= to.objects.Length
    modifies to`count, to.objects
    ensures to.Valid() && to.Listed() == from.Listed()
  {
    to.count := from.count;
    forall i | 0 <= i < from.count {
      to.objects[i] := from.objects[i];
    }
  }

  /**
    In the middle of the walk over `all`: the entries kept so far, then the rest, whose first is the next one;
    `dropped` entries have released their references.
  */
  predicate Walked(all: seq<Entry>, p: Pdo, kept: seq<Entry>, rest: seq<Entry>, dropped: nat) {
    && Kept(all, p) == kept + Kept(rest, p)
    && Occurrences(Pdos(all), p) == dropped + Occurrences(Pdos(rest), p)
  }

  lemma {:induction false} WalkEnds(all: seq<Entry>, p: Pdo, kept: seq<Entry>, dropped: nat)
    requires Walked(all, p, kept, [], dropped)
    ensures kept + [] == Kept(all, p) && Pdos(Kept(all, p)) == Without(Pdos(all), p)
    ensures dropped == Occurrences(Pdos(all), p)
  {
    KeptPdos(all, p);
  }

  /** One more entry, kept or dropped. */
  function KeptWith(kept: seq<Entry>, entry: Entry, p: Pdo): seq<Entry> {
    if entry.pdo == p then kept else kept + [entry]
  }

  function DroppedWith(dropped: nat, entry: Entry, p: Pdo): nat {
    if entry.pdo == p then dropped + 1 else dropped
  }

  lemma {:induction false} WalkGoesOn(all: seq<Entry>, p: Pdo, kept: seq<Entry>, rest: seq<Entry>, dropped: nat)
    requires rest != [] && Walked(all, p, kept, rest, dropped)
    ensures Walked(all, p, KeptWith(kept, rest[0], p), rest[1..], DroppedWith(dropped, rest[0], p))
  {
    var tail := Kept(rest[1..], p);
    assert Pdos(rest)[0] == rest[0].pdo && Pdos(rest)[1..] == Pdos(rest[1..]);
    if rest[0].pdo == p {
      assert Kept(rest, p) == tail;
    } else {
      assert Kept(rest, p) == [rest[0]] + tail;
      assert kept + ([rest[0]] + tail) == kept + [rest[0]] + tail;
    }
  }

  // ---------- the DEVICE_RELATIONS merge ----------

  /** DEVICE_RELATIONS: the first `count` elements of `objects` are in use. */
  class Relations {
    var count: nat
    const objects: array<Pdo>

    /** ExAllocatePool2 with room for n objects; the memory is zeroed. */
    constructor (n: nat)
      ensures count == 0 && objects.Length == n && fresh(objects)
    {
      objects := new Pdo[n](_ => 0);
      count := 0;
    }

    ghost predicate Valid()
      reads this
    {
      count <= objects.Length
    }

    ghost function Listed(): seq<Pdo>
      requires Valid()
      reads this, objects
    {
      objects[..count]
    }

    method Append(p: Pdo)
      requires count < objects.Length
      modifies this`count, objects
      ensures Valid() && count == old(count) + 1 && Listed() == old(objects[..count]) + [p]
    {
      objects[count] := p;
      count := count + 1;
    }
  }

  datatype Status = Pending | Success | InsufficientResources

  class Irp {
    var status: Status
    var information: Relations?

    constructor (information: Relations?)
      ensures this.information == information
    {
      this.information := information;
      status := Pending;
    }
  }

  /** What a list that may be absent lists. */
  ghost function Listing(r: Relations?): seq<Pdo>
    requires r != null ==> r.Valid()
    reads r, if r == null then {} else {r.objects}
  {
    if r == null then [] else r.Listed()
  }

  // ---------- conservation ----------

  /** Every entry owns one reference: the counts are those of everyone else plus one for each entry. */
  ghost predicate Owned(c: Counts, others: Counts, ps: seq<Pdo>) {
    forall p :: Count(c, p) == Count(others, p) + Occurrences(ps, p)
  }

  datatype Call = Add(pdo: Pdo, allocOk: bool) | Remove(pdo: Pdo)

  /** What a call leaves of the counts and of the entries, as the methods of PowerList state it. */
  function AfterCall(c: Counts, ps: seq<Pdo>, call: Call): (Counts, seq<Pdo>) {
    match call
    case Add(pdo, ok) => if ok then (Reference(c, pdo, 1), ps + [pdo]) else (c, ps)
    case Remove(pdo) => (Released(c, pdo, Occurrences(ps, pdo)), Without(ps, pdo))
  }

  function AfterCalls(c: Counts, ps: seq<Pdo>, calls: seq<Call>): (Counts, seq<Pdo>) {
    if calls == [] then (c, ps)
    else
      var (c', ps') := AfterCalls(c, ps, calls[..|calls| - 1]);
      AfterCall(c', ps', calls[|calls| - 1])
  }

  lemma {:induction false} CallKeepsOwned(c: Counts, others: Counts, ps: seq<Pdo>, call: Call)
    requires Owned(c, others, ps)
    ensures var (c', ps') := AfterCall(c, ps, call); Owned(c', others, ps')
  {
    var (c', ps') := AfterCall(c, ps, call);
    forall p ensures Count(c', p) == Count(others, p) + Occurrences(ps', p) {
      OccurrencesAppend(ps, if call.Add? then [call.pdo] else [], p);
      if call.Remove? {
        WithoutOccurrences(ps, call.pdo, p);
      }
    }
  }

  /** Over any run of additions and removals the list owns exactly one reference for each of its entries. */
  lemma {:induction false} EntriesOwnTheirReferences(c: Counts, calls: seq<Call>)
    ensures var (c', ps') := AfterCalls(c, [], calls); Owned(c', c, ps')
  {
    if calls != [] {
      var init := calls[..|calls| - 1];
      EntriesOwnTheirReferences(c, init);
      var (c', ps') := AfterCalls(c, [], init);
      CallKeepsOwned(c', c, ps', calls[|calls| - 1]);
    }
  }

  /**
    Answering a query is balanced: once the PnP manager has dereferenced everything a successful answer
    lists, each object has the count that a failing answer leaves it with.
  */
  lemma {:induction false} AnswersAreBalanced(c: Counts, prior: seq<Pdo>, mine: seq<Pdo>, p: Pdo)
    ensures Count(ReferenceAll(ReferenceAll(c, mine, 1), prior + mine, -1), p) == Count(ReferenceAll(c, prior, -1), p)
  {
    ReferenceAllCounts(c, mine, 1, p);
    ReferenceAllCounts(ReferenceAll(c, mine, 1), prior + mine, -1, p);
    ReferenceAllCounts(c, prior, -1, p);
    OccurrencesAppend(prior, mine, p);
  }
}
