/** Reference counts of objects, as ObReferenceObject and AddRef keep them. */
module References {

  type Id = nat

  /** The counts that were touched; what is not in the map has count zero. */
  type Counts = map<Id, int>

  function Count(c: Counts, p: Id): int {
    if p in c then c[p] else 0
  }

  function Reference(c: Counts, p: Id, delta: int): Counts {
    c[p := Count(c, p) + delta]
  }

  function ReferenceAll(c: Counts, ps: seq<Id>, delta: int): Counts {
    if ps == [] then c else Reference(ReferenceAll(c, ps[..|ps| - 1], delta), ps[|ps| - 1], delta)
  }

  function Occurrences(ps: seq<Id>, p: Id): nat {
    if ps == [] then 0 else (if ps[0] == p then 1 else 0) + Occurrences(ps[1..], p)
  }

  lemma {:induction false} OccurrencesAppend(a: seq<Id>, b: seq<Id>, p: Id)
    ensures Occurrences(a + b, p) == Occurrences(a, p) + Occurrences(b, p)
  {
    if a == [] {
      assert a + b == b;
    } else {
      assert (a + b)[1..] == a[1..] + b;
      OccurrencesAppend(a[1..], b, p);
    }
  }

  lemma {:induction false} OccurrencesLast(ps: seq<Id>, p: Id)
    requires ps != []
    ensures Occurrences(ps, p) == Occurrences(ps[..|ps| - 1], p) + if ps[|ps| - 1] == p then 1 else 0
  {
    var init, last := ps[..|ps| - 1], ps[|ps| - 1];
    OccurrencesAppend(init, [last], p);
    assert ps == init + [last];
  }

  lemma {:induction false} OneTimeMore(delta: int, n: nat)
    ensures delta * (n + 1) == delta * n + delta
  {
  }

  lemma {:induction false} ReferenceAllCounts(c: Counts, ps: seq<Id>, delta: int, p: Id)
    ensures Count(ReferenceAll(c, ps, delta), p) == Count(c, p) + delta * Occurrences(ps, p)
  {
    if ps != [] {
      var init := ps[..|ps| - 1];
      ReferenceAllCounts(c, init, delta, p);
      OccurrencesLast(ps, p);
      OneTimeMore(delta, Occurrences(init, p));
    }
  }

  lemma {:induction false} ReferenceAllAppend(c: Counts, a: seq<Id>, b: seq<Id>, delta: int)
    ensures ReferenceAll(ReferenceAll(c, a, delta), b, delta) == ReferenceAll(c, a + b, delta)
  {
    if b == [] {
      assert a + b == a;
    } else {
      assert (a + b)[..|a + b| - 1] == a + b[..|b| - 1];
      ReferenceAllAppend(c, a, b[..|b| - 1], delta);
    }
  }

  lemma {:induction false} ReferenceOne(c: Counts, p: Id, delta: int)
    ensures ReferenceAll(c, [p], delta) == Reference(c, p, delta)
  {
    assert [p][..0] == [];
  }

  /** The counts after n references to p were released. */
  function Released(c: Counts, p: Id, n: nat): Counts {
    if n == 0 then c else Reference(c, p, -1 * n as int)
  }

  lemma {:induction false} ReleasedOneMore(c: Counts, p: Id, n: nat)
    ensures Reference(Released(c, p, n), p, -1) == Released(c, p, n + 1)
  {
  }

  lemma {:induction false} ReferenceOneMore(c: Counts, ps: seq<Id>, k: nat, delta: int)
    requires k < |ps|
    ensures ReferenceAll(c, ps[..k + 1], delta) == Reference(ReferenceAll(c, ps[..k], delta), ps[k], delta)
    ensures ps[..k + 1] == ps[..k] + [ps[k]]
  {
    assert ps[..k + 1][..k] == ps[..k];
  }
}
