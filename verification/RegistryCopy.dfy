/**
  The recursive copy of a registry key into another one, by which a device interface inherits the
  parameters of its template. The source is not written while it is copied, and lies outside the destination.
*/
module RegistryCopy {

  import opened Basics

  datatype Value = Value(kind: nat, data: seq<bv8>)

  /** An open source key, as enumeration shows it. */
  datatype Key = Key(values: seq<NamedValue>, subkeys: seq<Subkey>)

  datatype NamedValue = NamedValue(name: string, value: Value)

  datatype Subkey = Subkey(name: string, key: Key)

  type Path = seq<string>

  type Values = map<string, Value>

  /** The keys of the destination hive and their values. */
  type Keys = map<Path, Values>

  predicate DistinctNames(values: seq<NamedValue>) {
    forall i, j :: 0 <= i < j < |values| ==> values[i].name != values[j].name
  }

  /** The values of a key have distinct names, and so do its subkeys. */
  predicate WellFormed(k: Key) {
    && DistinctNames(k.values)
    && (forall i, j :: 0 <= i < j < |k.subkeys| ==> k.subkeys[i].name != k.subkeys[j].name)
    && forall i :: 0 <= i < |k.subkeys| ==> WellFormed(k.subkeys[i].key)
  }

  // ---------- what is copied, point by point ----------

  function Lookup(keys: Keys, q: Path): Option<Values> {
    if q in keys then Some(keys[q]) else None
  }

  function ValuesAt(keys: Keys, q: Path): Values {
    if q in keys then keys[q] else map[]
  }

  function AllValues(values: seq<NamedValue>): Values {
    if values == [] then map[]
    else AllValues(values[..|values| - 1])[values[|values| - 1].name := values[|values| - 1].value]
  }

  /** The first of the first n subkeys with the name, or n. */
  function Child(k: Key, n: nat, name: string): (i: nat)
    requires n <= |k.subkeys|
    ensures i <= n && (i < n ==> k.subkeys[i].name == name)
    ensures forall j :: 0 <= j < i ==> k.subkeys[j].name != name
  {
    if n == 0 then 0
    else
      var i := Child(k, n - 1, name);
      if i < n - 1 || k.subkeys[n - 1].name == name then i else n
  }

  /** The key at a path below k. */
  function At(k: Key, path: Path): Option<Key>
    decreases |path|
  {
    if path == [] then Some(k)
    else
      var i := Child(k, |k.subkeys|, path[0]);
      if i < |k.subkeys| then At(k.subkeys[i].key, path[1..]) else None
  }

  /** The source key that a destination path stands for. Without overwriting, the first level stands for nothing. */
  function SourceOf(k: Key, dst: Path, overwrite: bool, q: Path): Option<Key> {
    if dst <= q && (overwrite || q != dst) then At(k, q[|dst|..]) else None
  }

  /** Every source value is there, and every other value and key is as before. */
  function Expected(keys: Keys, k: Key, dst: Path, overwrite: bool, q: Path): Option<Values> {
    Overlaid(keys, SourceOf(k, dst, overwrite, q), q)
  }

  function Overlaid(keys: Keys, s: Option<Key>, q: Path): Option<Values> {
    if s.Some? then Some(ValuesAt(keys, q) + AllValues(s.value.values)) else Lookup(keys, q)
  }

  // ---------- what the copy leaves, step by step ----------

  function Created(keys: Keys, q: Path): Keys {
    if q in keys then keys else keys[q := map[]]
  }

  function WithValues(keys: Keys, q: Path, values: seq<NamedValue>): Keys {
    keys[q := ValuesAt(keys, q) + AllValues(values)]
  }

  function Merged(keys: Keys, k: Key, dst: Path, overwrite: bool): Keys
    decreases k, |k.subkeys| + 1
  {
    var below := WithSubkeys(keys, k, |k.subkeys|, dst);
    if overwrite then WithValues(below, dst, k.values) else below
  }

  /** The destination once the first n subkeys were copied. */
  function WithSubkeys(keys: Keys, k: Key, n: nat, dst: Path): Keys
    requires n <= |k.subkeys|
    decreases k, n
  {
    if n == 0 then keys
    else
      var s := k.subkeys[n - 1];
      Merged(Created(WithSubkeys(keys, k, n - 1, dst), dst + [s.name]), s.key, dst + [s.name], true)
  }

  /** The source key that a path stands for when only the first n subkeys count. */
  function SourceBelow(k: Key, n: nat, dst: Path, q: Path): Option<Key>
    requires n <= |k.subkeys|
  {
    if dst <= q && q != dst then
      var i := Child(k, n, q[|dst|]);
      if i < n then At(k.subkeys[i].key, q[|dst| + 1..]) else None
    else None
  }

  lemma {:induction false} SourceBelowAll(k: Key, dst: Path, q: Path)
    ensures SourceBelow(k, |k.subkeys|, dst, q) == SourceOf(k, dst, false, q)
  {
    if dst <= q && q != dst {
      assert q[|dst|..][0] == q[|dst|] && q[|dst|..][1..] == q[|dst| + 1..];
    }
  }

  /** One more subkey adds the paths below it, which stood for nothing before. */
  lemma {:induction false} SourceBelowOneMore(k: Key, n: nat, dst: Path, q: Path)
    requires WellFormed(k) && n < |k.subkeys|
    ensures var s := SourceOf(k.subkeys[n].key, dst + [k.subkeys[n].name], true, q);
      && (s.Some? ==> SourceBelow(k, n, dst, q) == None)
      && SourceBelow(k, n + 1, dst, q) == if s.Some? then s else SourceBelow(k, n, dst, q)
  {
    var p := dst + [k.subkeys[n].name];
    if dst <= q && q != dst {
      assert p <= q <==> q[|dst|] == k.subkeys[n].name;
    } else {
      assert !(p <= q);
    }
  }

  /** Step by step and point by point, the copy is the same. */
  lemma {:induction false} MergedIsExpected(keys: Keys, k: Key, dst: Path, overwrite: bool, q: Path)
    requires WellFormed(k)
    ensures Lookup(Merged(keys, k, dst, overwrite), q) == Expected(keys, k, dst, overwrite, q)
    decreases k, |k.subkeys| + 1
  {
    WithSubkeysIsExpected(keys, k, |k.subkeys|, dst, q);
    SourceBelowAll(k, dst, q);
    if overwrite && q == dst {
      assert q[|dst|..] == [];
    }
  }

  lemma {:induction false} WithSubkeysIsExpected(keys: Keys, k: Key, n: nat, dst: Path, q: Path)
    requires WellFormed(k) && n <= |k.subkeys|
    ensures Lookup(WithSubkeys(keys, k, n, dst), q) == Overlaid(keys, SourceBelow(k, n, dst, q), q)
    decreases k, n
  {
    if n > 0 {
      var s, before := k.subkeys[n - 1], WithSubkeys(keys, k, n - 1, dst);
      WithSubkeysIsExpected(keys, k, n - 1, dst, q);
      MergedIsExpected(Created(before, dst + [s.name]), s.key, dst + [s.name], true, q);
      OneMoreSubkey(keys, before, k, n - 1, dst, q);
    }
  }

  lemma {:induction false} OneMoreSubkey(keys: Keys, before: Keys, k: Key, n: nat, dst: Path, q: Path)
    requires WellFormed(k) && n < |k.subkeys| && Lookup(before, q) == Overlaid(keys, SourceBelow(k, n, dst, q), q)
    ensures var s := k.subkeys[n]; var p := dst + [s.name];
      Expected(Created(before, p), s.key, p, true, q) == Overlaid(keys, SourceBelow(k, n + 1, dst, q), q)
  {
    var s, p := k.subkeys[n], dst + [k.subkeys[n].name];
    SourceBelowOneMore(k, n, dst, q);
    SourceOfItself(s.key, p, q);
    OverlaidOnce(keys, before, SourceBelow(k, n, dst, q), SourceOf(s.key, p, true, q), p, q);
  }

  lemma {:induction false} SourceOfItself(k: Key, p: Path, q: Path)
    ensures q == p ==> SourceOf(k, p, true, q) == Some(k)
  {
    assert q == p ==> q[|p|..] == [];
  }

  lemma {:induction false} OverlaidOnce(keys: Keys, before: Keys, s: Option<Key>, t: Option<Key>, p: Path, q: Path)
    requires Lookup(before, q) == Overlaid(keys, s, q) && (t.Some? ==> s == None) && (q == p ==> t.Some?)
    ensures Overlaid(Created(before, p), t, q) == Overlaid(keys, if t.Some? then t else s, q)
  {
    assert ValuesAt(Created(before, p), q) == ValuesAt(before, q);
  }

  /**
    Without overwriting, the first level keeps its values; below it every source value is there, and whatever
    the source does not have is as it was.
  */
  lemma {:induction false} OnlyTheFirstLevelIsSpared(keys: Keys, k: Key, dst: Path, path: Path, name: string)
    requires WellFormed(k)
    ensures var m := Merged(keys, k, dst, false);
      && Lookup(m, dst) == Lookup(keys, dst)
      && (path != [] && At(k, path).Some? && name in AllValues(At(k, path).value.values) ==>
            ValueAt(m, dst + path, name) == Some(AllValues(At(k, path).value.values)[name]))
      && (path != [] && (At(k, path).None? || name !in AllValues(At(k, path).value.values)) ==>
            ValueAt(m, dst + path, name) == ValueAt(keys, dst + path, name))
  {
    MergedIsExpected(keys, k, dst, false, dst);
    MergedIsExpected(keys, k, dst, false, dst + path);
    assert (dst + path)[|dst|..] == path;
  }

  /** Copying again changes nothing. */
  lemma {:induction false} CopyingTwice(keys: Keys, k: Key, dst: Path, overwrite: bool)
    requires WellFormed(k)
    ensures Merged(Merged(keys, k, dst, overwrite), k, dst, overwrite) == Merged(keys, k, dst, overwrite)
  {
    var once := Merged(keys, k, dst, overwrite);
    var twice := Merged(once, k, dst, overwrite);
    forall q ensures Lookup(twice, q) == Lookup(once, q) {
      MergedIsExpected(keys, k, dst, overwrite, q);
      MergedIsExpected(once, k, dst, overwrite, q);
      var s := SourceOf(k, dst, overwrite, q);
      if s.Some? {
        var was, vs := ValuesAt(keys, q), AllValues(s.value.values);
        assert ValuesAt(once, q) == was + vs && was + vs + vs == was + vs;
      }
    }
    assert forall q :: q in twice <==> Lookup(twice, q).Some?;
    assert forall q :: q in once <==> Lookup(once, q).Some?;
  }

  // ---------- how far a failing copy gets ----------

  function ValueAt(keys: Keys, q: Path, name: string): Option<Value> {
    if q in keys && name in keys[q] then Some(keys[q][name]) else None
  }

  function SourceValue(k: Key, dst: Path, overwrite: bool, q: Path, name: string): Option<Value> {
    var s := SourceOf(k, dst, overwrite, q);
    if s.Some? && name in AllValues(s.value.values) then Some(AllValues(s.value.values)[name]) else None
  }

  /** From a to b no key went away, and every value is the one it was or the one the source has for it. */
  ghost predicate OnlyCopies(a: Keys, b: Keys, k: Key, dst: Path, overwrite: bool) {
    && a.Keys <= b.Keys
    && forall q, name ::
         || ValueAt(b, q, name) == ValueAt(a, q, name)
         || (SourceValue(k, dst, overwrite, q, name).Some? && ValueAt(b, q, name) == SourceValue(k, dst, overwrite, q, name))
  }

  lemma {:induction false} OnlyCopiesTwice(a: Keys, b: Keys, c: Keys, k: Key, dst: Path, overwrite: bool)
    requires OnlyCopies(a, b, k, dst, overwrite) && OnlyCopies(b, c, k, dst, overwrite)
    ensures OnlyCopies(a, c, k, dst, overwrite)
  {
  }

  /** What is copied below a subkey is copied below the key. */
  lemma {:induction false} OnlyCopiesBelow(a: Keys, b: Keys, k: Key, i: nat, dst: Path, overwrite: bool)
    requires WellFormed(k) && i < |k.subkeys|
    requires OnlyCopies(Created(a, dst + [k.subkeys[i].name]), b, k.subkeys[i].key, dst + [k.subkeys[i].name], true)
    ensures OnlyCopies(a, b, k, dst, overwrite)
  {
    var p := dst + [k.subkeys[i].name];
    forall q, name
      ensures ValueAt(b, q, name) == ValueAt(a, q, name)
           || (SourceValue(k, dst, overwrite, q, name).Some? && ValueAt(b, q, name) == SourceValue(k, dst, overwrite, q, name))
    {
      if p <= q {
        assert dst <= q && q != dst && q[|dst|] == k.subkeys[i].name;
        assert q[|dst|..][0] == q[|dst|] && q[|dst|..][1..] == q[|p|..];
        assert Child(k, |k.subkeys|, q[|dst|]) == i;
        assert SourceOf(k, dst, overwrite, q) == SourceOf(k.subkeys[i].key, p, true, q);
      }
      assert ValueAt(Created(a, p), q, name) == ValueAt(a, q, name);
    }
  }

  // ---------- the operations ----------

  /** The destination hive. The first system call to fail is the one that finds `good` at zero. */
  class Registry {
    var keys: Keys
    var good: nat

    constructor (keys: Keys, good: nat)
      ensures this.keys == keys && this.good == good
    {
      this.keys := keys;
      this.good := good;
    }

    /** A system call that only reads. */
    method Call() returns (ok: bool)
      modifies this`good
      ensures ok == (old(good) >= 1) && good == old(good) - if ok then 1 else 0
    {
      ok := good > 0;
      if ok {
        good := good - 1;
      }
    }

    method ZwCreateKey(q: Path) returns (ok: bool)
      modifies this
      ensures ok == (old(good) >= 1) && good == old(good) - if ok then 1 else 0
      ensures keys == if ok && q !in old(keys) then old(keys)[q := map[]] else old(keys)
    {
      ok := Call();
      if ok && q !in keys {
        keys := keys[q := map[]];
      }
    }

    method ZwSetValueKey(q: Path, name: string, value: Value) returns (ok: bool)
      requires q in keys
      modifies this
      ensures ok == (old(good) >= 1) && good == old(good) - if ok then 1 else 0
      ensures keys == if ok then old(keys)[q := old(keys)[q][name := value]] else old(keys)
    {
      ok := Call();
      if ok {
        keys := keys[q := keys[q][name := value]];
      }
    }

    /** Enumerates the values of one key and writes each of them; the last enumeration finds no more. */
    method CopyRegistryValues(k: Key, dst: Path) returns (ok: bool)
      requires WellFormed(k) && dst in keys
      modifies this
      ensures ok == (old(good) >= 2 * |k.values| + 1) && (ok ==> good == old(good) - (2 * |k.values| + 1))
      ensures ok ==> keys == WithValues(old(keys), dst, k.values)
      ensures OnlyCopies(old(keys), keys, k, dst, true)
    {
      ghost var before := keys;
      var i := 0;
      ok := true;
      assert keys[dst] + AllValues([]) == keys[dst];
      while ok && i < |k.values|
        invariant i <= |k.values| && dst in keys
        invariant if ok then good == old(good) - 2 * i else old(good) < 2 * |k.values|
        invariant keys == WithValues(before, dst, k.values[..i])
        decreases |k.values| - i, ok
      {
        ok := Call();
        if ok {
          ok := ZwSetValueKey(dst, k.values[i].name, k.values[i].value);
        }
        if ok {
          WithOneMore(before, dst, k.values, i);
          i := i + 1;
        }
      }
      PartOfTheValues(before, k, i, dst);
      if ok {
        ok := Call();
      }
    }

    /**
      Copies a key: first its subkeys, each with everything below it, and then, if overwriting, its values. It
      succeeds exactly if every system call on the way does.
    */
    method CopyRegistryKey(k: Key, dst: Path, overwrite: bool) returns (ok: bool)
      requires WellFormed(k) && dst in keys
      modifies this
      ensures ok == (old(good) >= Calls(k, overwrite)) && (ok ==> good == old(good) - Calls(k, overwrite))
      ensures ok ==> keys == Merged(old(keys), k, dst, overwrite)
      ensures OnlyCopies(old(keys), keys, k, dst, overwrite)
      decreases k, |k.subkeys| + 2
    {
      ok := CopySubkeys(k, dst, overwrite);
      if ok && overwrite {
        ghost var before, between := old(keys), keys;
        ok := CopyRegistryValues(k, dst);
        OnlyCopiesTwice(before, between, keys, k, dst, true);
      }
    }

    /** The loop over the subkeys; the last enumeration finds no more. */
    method CopySubkeys(k: Key, dst: Path, ghost overwrite: bool) returns (ok: bool)
      requires WellFormed(k) && dst in keys
      modifies this
      ensures ok == (old(good) >= SubkeyCalls(k, |k.subkeys|) + 1)
      ensures ok ==> good == old(good) - (SubkeyCalls(k, |k.subkeys|) + 1)
      ensures ok ==> keys == WithSubkeys(old(keys), k, |k.subkeys|, dst)
      ensures OnlyCopies(old(keys), keys, k, dst, overwrite)
      decreases k, |k.subkeys| + 1
    {
      var i := 0;
      ok := true;
      while ok && i < |k.subkeys|
        invariant i <= |k.subkeys| && (ok ==> keys == WithSubkeys(old(keys), k, i, dst))
        invariant if ok then good == old(good) - SubkeyCalls(k, i) else old(good) < SubkeyCalls(k, |k.subkeys|)
        invariant OnlyCopies(old(keys), keys, k, dst, overwrite)
        decreases |k.subkeys| - i, ok
      {
        ghost var before := keys;
        ok := CopySubkey(k, i, dst, overwrite);
        OnlyCopiesTwice(old(keys), before, keys, k, dst, overwrite);
        SubkeyCallsGrow(k, i + 1, |k.subkeys|);
        i := i + 1;
      }
      if ok {
        ok := Call();
      }
    }

    /** One subkey: it is enumerated, opened, created at the destination, and copied. */
    method CopySubkey(k: Key, i: nat, dst: Path, ghost overwrite: bool) returns (ok: bool)
      requires WellFormed(k) && dst in keys && i < |k.subkeys|
      modifies this
      ensures ok == (old(good) >= 3 + Calls(k.subkeys[i].key, true))
      ensures ok ==> good == old(good) - (3 + Calls(k.subkeys[i].key, true))
      ensures var p := dst + [k.subkeys[i].name];
        ok ==> keys == Merged(Created(old(keys), p), k.subkeys[i].key, p, true)
      ensures OnlyCopies(old(keys), keys, k, dst, overwrite)
      decreases k, i
    {
      var s := k.subkeys[i];
      ok := Call();
      if ok {
        ok := Call();
      }
      if ok {
        ok := ZwCreateKey(dst + [s.name]);
      }
      if ok {
        ok := CopyRegistryKey(s.key, dst + [s.name], true);
        OnlyCopiesBelow(old(keys), keys, k, i, dst, overwrite);
      }
    }
  }

  /** The system calls that copying a key takes. */
  function Calls(k: Key, overwrite: bool): nat
    decreases k, |k.subkeys| + 1
  {
    SubkeyCalls(k, |k.subkeys|) + 1 + if overwrite then 2 * |k.values| + 1 else 0
  }

  function SubkeyCalls(k: Key, n: nat): nat
    requires n <= |k.subkeys|
    decreases k, n
  {
    if n == 0 then 0 else SubkeyCalls(k, n - 1) + 3 + Calls(k.subkeys[n - 1].key, true)
  }

  lemma {:induction false} SubkeyCallsGrow(k: Key, m: nat, n: nat)
    requires m <= n <= |k.subkeys|
    ensures SubkeyCalls(k, m) <= SubkeyCalls(k, n)
    decreases n
  {
    if m < n {
      SubkeyCallsGrow(k, m, n - 1);
    }
  }

  lemma {:induction false} WithOneMore(keys: Keys, dst: Path, values: seq<NamedValue>, i: nat)
    requires i < |values|
    ensures var now := WithValues(keys, dst, values[..i]);
      WithValues(keys, dst, values[..i + 1]) == now[dst := now[dst][values[i].name := values[i].value]]
  {
    assert values[..i + 1][..i] == values[..i];
    var was, vs, v := ValuesAt(keys, dst), AllValues(values[..i]), values[i];
    assert was + vs[v.name := v.value] == (was + vs)[v.name := v.value];
    assert keys[dst := was + vs][dst := (was + vs)[v.name := v.value]] == keys[dst := (was + vs)[v.name := v.value]];
  }

  lemma {:induction false} AllValuesAt(values: seq<NamedValue>, name: string)
    requires DistinctNames(values)
    ensures name in AllValues(values) <==> exists j :: 0 <= j < |values| && values[j].name == name
    ensures forall j :: 0 <= j < |values| && values[j].name == name ==> name in AllValues(values) && AllValues(values)[name] == values[j].value
  {
    if values != [] {
      AllValuesAt(values[..|values| - 1], name);
    }
  }

  /** A prefix of the values is a part of them, since their names are distinct. */
  lemma {:induction false} PartOfTheValues(keys: Keys, k: Key, i: nat, dst: Path)
    requires DistinctNames(k.values) && i <= |k.values| && dst in keys
    ensures i == |k.values| ==> WithValues(keys, dst, k.values[..i]) == WithValues(keys, dst, k.values)
    ensures OnlyCopies(keys, WithValues(keys, dst, k.values[..i]), k, dst, true)
  {
    assert k.values[..|k.values|] == k.values && dst[|dst|..] == [];
    var b, part := WithValues(keys, dst, k.values[..i]), k.values[..i];
    forall q, name
      ensures ValueAt(b, q, name) == ValueAt(keys, q, name)
           || (SourceValue(k, dst, true, q, name).Some? && ValueAt(b, q, name) == SourceValue(k, dst, true, q, name))
    {
      if q == dst {
        AllValuesAt(k.values, name);
        AllValuesAt(part, name);
        assert SourceOf(k, dst, true, q) == Some(k);
        if name in AllValues(part) {
          var j :| 0 <= j < |part| && part[j].name == name;
          assert k.values[j].name == name;
        }
      }
    }
  }
}
