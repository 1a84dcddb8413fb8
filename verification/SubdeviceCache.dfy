/**
  The adapter's cache of installed subdevices: which port and miniport stand under which name, and who
  holds the references to them. Calls for one adapter are serialized, as the endpoint installers assume.
*/
module SubdeviceCache {

  import opened Basics
  import opened References

  type Unknown = Id

  /** The length of the Name array, terminator included. */
  const MAX_PATH: nat := 260

  /** A MINIPAIR_UNKNOWN. The last two interfaces are there only if the miniport answers for them. */
  datatype Minipair = Minipair(name: string, port: Unknown, miniport: Unknown, power: Option<Unknown>, change: Option<Unknown>)

  /**
    What the port class library and the allocator answer while one filter is installed: the first call that
    fails, with the objects made before it, or a device.
  */
  datatype Install =
    | NoInterface
    | NoPort
    | NoMiniport(port: Unknown)
    | NotInitialized(port: Unknown, miniport: Unknown)
    | NotRegistered(port: Unknown, miniport: Unknown)
    | Device(port: Unknown, miniport: Unknown, power: Option<Unknown>, change: Option<Unknown>, room: bool)

  // ---------- the cache as a sequence ----------

  predicate Has(cache: seq<Minipair>, name: string) {
    exists i :: 0 <= i < |cache| && cache[i].name == name
  }

  predicate Unique(cache: seq<Minipair>) {
    forall i, j :: 0 <= i < j < |cache| ==> cache[i].name != cache[j].name
  }

  /** The first entry with the name, or the end of the cache. */
  function First(cache: seq<Minipair>, name: string): (i: nat)
    ensures i <= |cache| && (i < |cache| ==> cache[i].name == name)
    ensures forall j :: 0 <= j < i ==> cache[j].name != name
  {
    if cache == [] then 0
    else
      var i := First(cache[..|cache| - 1], name);
      if i < |cache| - 1 || cache[|cache| - 1].name == name then i else |cache|
  }

  function Without(cache: seq<Minipair>, name: string): seq<Minipair> {
    var i := First(cache, name);
    if i < |cache| then cache[..i] + cache[i + 1..] else cache
  }

  function Optional(u: Option<Unknown>): seq<Unknown> {
    if u.Some? then [u.value] else []
  }

  /** The references an entry owns. */
  function Refs(e: Minipair): seq<Unknown> {
    [e.port, e.miniport] + Optional(e.power) + Optional(e.change)
  }

  /** One for each of its interfaces, once for each time the entry names it. */
  lemma {:induction false} EntryOwns(e: Minipair, u: Unknown)
    ensures Occurrences(Refs(e), u) ==
            (if u == e.port then 1 else 0) + (if u == e.miniport then 1 else 0)
            + (if e.power == Some(u) then 1 else 0) + (if e.change == Some(u) then 1 else 0)
  {
    OccurrencesAppend([e.port, e.miniport] + Optional(e.power), Optional(e.change), u);
    OccurrencesAppend([e.port, e.miniport], Optional(e.power), u);
    OccurrencesAppend([e.port], [e.miniport], u);
    assert [e.port] + [e.miniport] == [e.port, e.miniport];
  }

  /** The references the cache owns. */
  function Held(cache: seq<Minipair>): seq<Unknown> {
    if cache == [] then [] else Held(cache[..|cache| - 1]) + Refs(cache[|cache| - 1])
  }

  lemma {:induction false} HeldAppend(a: seq<Minipair>, b: seq<Minipair>, u: Unknown)
    ensures Occurrences(Held(a + b), u) == Occurrences(Held(a), u) + Occurrences(Held(b), u)
  {
    if b == [] {
      assert a + b == a;
    } else {
      var init, last := b[..|b| - 1], b[|b| - 1];
      assert (a + b)[..|a + b| - 1] == a + init;
      HeldAppend(a, init, u);
      OccurrencesAppend(Held(a + init), Refs(last), u);
      OccurrencesAppend(Held(init), Refs(last), u);
    }
  }

  lemma {:induction false} HeldOne(e: Minipair)
    ensures Held([e]) == Refs(e)
  {
    assert [e][..0] == [];
    assert Held([e]) == [] + Refs(e);
  }

  // ---------- the ledger ----------

  datatype Ledger = Ledger(cache: seq<Minipair>, refs: Counts)

  /** The references to u that the cache does not own. */
  function Loose(l: Ledger, u: Unknown): int {
    Count(l.refs, u) - Occurrences(Held(l.cache), u)
  }

  /** From a to b, exactly the references in `taken` were handed to someone outside the cache. */
  ghost predicate Gives(a: Ledger, b: Ledger, taken: seq<Unknown>) {
    forall u :: Loose(b, u) == Loose(a, u) + Occurrences(taken, u)
  }

  lemma {:induction false} GivesBoth(a: Ledger, b: Ledger, c: Ledger, x: seq<Unknown>, y: seq<Unknown>)
    requires Gives(a, b, x) && Gives(b, c, y)
    ensures Gives(a, c, x + y)
  {
    forall u ensures Loose(c, u) == Loose(a, u) + Occurrences(x + y, u) {
      OccurrencesAppend(x, y, u);
    }
  }

  /** What was handed out and is given back leaves the rest. */
  lemma {:induction false} GivesBack(a: Ledger, b: Ledger, c: Ledger, x: seq<Unknown>, y: seq<Unknown>)
    requires Gives(a, b, x + y) && Gives(c, b, x)
    ensures Gives(a, c, y)
  {
    forall u ensures Loose(c, u) == Loose(a, u) + Occurrences(y, u) {
      OccurrencesAppend(x, y, u);
    }
  }

  lemma {:induction false} TakingGives(a: Ledger, us: seq<Unknown>)
    ensures Gives(a, a.(refs := ReferenceAll(a.refs, us, 1)), us)
    ensures Gives(a.(refs := ReferenceAll(a.refs, us, -1)), a, us)
  {
    forall u
      ensures Count(ReferenceAll(a.refs, us, 1), u) == Count(a.refs, u) + Occurrences(us, u)
      ensures Count(ReferenceAll(a.refs, us, -1), u) == Count(a.refs, u) - Occurrences(us, u)
    {
      ReferenceAllCounts(a.refs, us, 1, u);
      ReferenceAllCounts(a.refs, us, -1, u);
    }
  }

  lemma {:induction false} CachingGivesNothing(a: Ledger, e: Minipair)
    ensures Gives(a, Ledger(a.cache + [e], ReferenceAll(a.refs, Refs(e), 1)), [])
  {
    HeldOne(e);
    forall u ensures Loose(Ledger(a.cache + [e], ReferenceAll(a.refs, Refs(e), 1)), u) == Loose(a, u) {
      HeldAppend(a.cache, [e], u);
      ReferenceAllCounts(a.refs, Refs(e), 1, u);
    }
  }

  lemma {:induction false} RemovingGivesNothing(a: Ledger, i: nat)
    requires i < |a.cache|
    ensures Gives(a, Ledger(a.cache[..i] + a.cache[i + 1..], ReferenceAll(a.refs, Refs(a.cache[i]), -1)), [])
  {
    var e := a.cache[i];
    HeldOne(e);
    assert a.cache == a.cache[..i] + ([e] + a.cache[i + 1..]);
    forall u
      ensures Loose(Ledger(a.cache[..i] + a.cache[i + 1..], ReferenceAll(a.refs, Refs(e), -1)), u) == Loose(a, u)
    {
      HeldAppend(a.cache[..i], [e] + a.cache[i + 1..], u);
      HeldAppend([e], a.cache[i + 1..], u);
      HeldAppend(a.cache[..i], a.cache[i + 1..], u);
      ReferenceAllCounts(a.refs, Refs(e), -1, u);
    }
  }

  // ---------- what an installation leaves ----------

  predicate Fits(name: string, d: Install) {
    d.Device? && d.room && |name| < MAX_PATH
  }

  function EntryFor(name: string, d: Install): Minipair
    requires d.Device?
  {
    Minipair(name, d.port, d.miniport, d.power, d.change)
  }

  /** The cache after one filter was looked up and, if it was not there, installed. */
  function WithFilter(cache: seq<Minipair>, name: string, d: Install): seq<Minipair> {
    if !Has(cache, name) && Fits(name, d) then cache + [EntryFor(name, d)] else cache
  }

  /** A port for the filter is at hand, cached or not. */
  predicate Available(cache: seq<Minipair>, name: string, d: Install) {
    Has(cache, name) || d.Device?
  }

  /** A PHYSICALCONNECTIONTABLE entry: which filter's pin is the output, and the two pins. */
  datatype PhysicalConnection =
    | TopologyOutput(topologyPin: nat, wavePin: nat)
    | WaveOutput(topologyPin: nat, wavePin: nat)

  /**
    An endpoint minipair, and what the rest of the system answers: how each filter's installation goes, how many
    connections can be made, whether connections can be taken back, and whether each filter can be unregistered.
  */
  datatype Request = Request(topo: string, wave: string, table: seq<PhysicalConnection>,
    topology: Install, waveRT: Install, made: nat, disconnects: bool, topoLeaves: bool, waveLeaves: bool)

  predicate Connects(r: Request) {
    r.made >= |r.table|
  }

  function BothFilters(cache: seq<Minipair>, r: Request): seq<Minipair> {
    WithFilter(WithFilter(cache, r.topo, r.topology), r.wave, r.waveRT)
  }

  /** The status of an installation: that of its last step, whatever became of the steps before. */
  predicate Succeeds(cache: seq<Minipair>, r: Request) {
    var c := WithFilter(cache, r.topo, r.topology);
    if Available(cache, r.topo, r.topology) && Available(c, r.wave, r.waveRT) then Connects(r)
    else Has(c, r.wave) || Fits(r.wave, r.waveRT)
  }

  /** The status by what the system answers: it fails only if the wave filter is to be had for no name, or the two cannot be connected. */
  lemma {:induction false} StatusByName(cache: seq<Minipair>, r: Request)
    ensures var topology := Has(cache, r.topo) || r.topology.Device?;
      var cached := Has(cache, r.wave)
        || (r.wave == r.topo && r.topology.Device? && r.topology.room && |r.topo| < 260);
      Succeeds(cache, r) <==>
      if topology && (cached || r.waveRT.Device?) then r.made >= |r.table|
      else cached || (r.waveRT.Device? && r.waveRT.room && |r.wave| < 260)
  {
    WithFilterHas(cache, r.topo, r.topology, r.wave);
  }

  lemma {:induction false} WithFilterKeepsUnique(cache: seq<Minipair>, name: string, d: Install)
    requires Unique(cache)
    ensures Unique(WithFilter(cache, name, d))
  {
    var c := WithFilter(cache, name, d);
    forall i, j | 0 <= i < j < |c| ensures c[i].name != c[j].name {
      assert Has(cache, name) || cache[i].name != name;
    }
  }

  lemma {:induction false} BothFiltersUnique(cache: seq<Minipair>, r: Request)
    ensures Unique(cache) ==> Unique(BothFilters(cache, r))
  {
    if Unique(cache) {
      WithFilterKeepsUnique(cache, r.topo, r.topology);
      WithFilterKeepsUnique(WithFilter(cache, r.topo, r.topology), r.wave, r.waveRT);
    }
  }

  lemma {:induction false} HasAppend(a: seq<Minipair>, b: seq<Minipair>, name: string)
    ensures Has(a + b, name) <==> Has(a, name) || Has(b, name)
  {
    if Has(a, name) {
      var i :| 0 <= i < |a| && a[i].name == name;
      assert (a + b)[i].name == name;
    }
    if Has(b, name) {
      var i :| 0 <= i < |b| && b[i].name == name;
      assert (a + b)[|a| + i].name == name;
    }
  }

  lemma {:induction false} WithFilterHas(cache: seq<Minipair>, name: string, d: Install, other: string)
    ensures Has(WithFilter(cache, name, d), other) <==> Has(cache, other) || (other == name && Fits(name, d))
  {
    if !Has(cache, name) && Fits(name, d) {
      var e := EntryFor(name, d);
      HasAppend(cache, [e], other);
      assert [e][0].name == name;
    }
  }

  lemma {:induction false} RemovingNothing(cache: seq<Minipair>, name: string)
    requires !Has(cache, name)
    ensures Without(cache, name) == cache
  {
  }

  lemma {:induction false} RemovingTheNewest(cache: seq<Minipair>, e: Minipair, later: seq<Minipair>)
    requires !Has(cache, e.name)
    ensures Without(cache + [e] + later, e.name) == cache + later
  {
    var c := cache + [e] + later;
    var i := First(c, e.name);
    assert c[|cache|] == e;
    assert i == |cache|;
  }

  /** What a failing installation does to the cache that both lookups left behind. */
  function Undone(cache: seq<Minipair>, r: Request): seq<Minipair> {
    var c := BothFilters(cache, r);
    var d := if !Has(cache, r.topo) && r.topology.Device? then Without(c, r.topo) else c;
    if !Has(WithFilter(cache, r.topo, r.topology), r.wave) && r.waveRT.Device? then Without(d, r.wave) else d
  }

  /** A failing installation leaves the cache as it found it. */
  lemma {:induction false} FailureRestoresTheCache(cache: seq<Minipair>, r: Request)
    requires !Succeeds(cache, r)
    ensures Undone(cache, r) == cache
  {
    var c := WithFilter(cache, r.topo, r.topology);
    var w := if !Has(c, r.wave) && Fits(r.wave, r.waveRT) then [EntryFor(r.wave, r.waveRT)] else [];
    assert BothFilters(cache, r) == c + w;
    WithFilterHas(cache, r.topo, r.topology, r.wave);
    UndoneTopology(cache, r.topo, r.topology, w);
    if w != [] {
      assert !Has(cache, r.wave);
      if !Has(cache, r.topo) && r.topology.Device? && !Fits(r.topo, r.topology) && r.topo == r.wave {
        RemovingNothing(cache, r.wave);
      } else {
        RemovingTheNewest(cache, w[0], []);
        assert cache + w + [] == cache + w && cache + [] == cache;
      }
    } else if !Has(c, r.wave) {
      RemovingNothing(cache, r.wave);
    }
  }

  /** Undoing the topology filter, when it was new, takes out its entry, or with no entry of its own the like-named one. */
  lemma {:induction false} UndoneTopology(cache: seq<Minipair>, name: string, d: Install, w: seq<Minipair>)
    requires |w| <= 1
    requires w != [] ==> !Has(WithFilter(cache, name, d), w[0].name)
    ensures var c := WithFilter(cache, name, d) + w;
      (if !Has(cache, name) && d.Device? then Without(c, name) else c) ==
      (if !Has(cache, name) && d.Device? && !Fits(name, d) && w != [] && w[0].name == name then cache else cache + w)
  {
    if !Has(cache, name) && d.Device? {
      if Fits(name, d) {
        RemovingTheNewest(cache, EntryFor(name, d), w);
      } else if w != [] && w[0].name == name {
        RemovingTheNewest(cache, w[0], []);
        assert cache + [w[0]] + [] == cache + w && cache + [] == cache;
      } else {
        HasAppend(cache, w, name);
        RemovingNothing(cache + w, name);
      }
    }
  }

  /**
    After a success both filters are cached if and only if each of them was cached before or was installed
    and found room: the status does not tell, since a later step overwrites it.
  */
  lemma {:induction false} BothAreCachedIff(cache: seq<Minipair>, r: Request)
    ensures var topology := r.topology.Device? && r.topology.room && |r.topo| < 260;
      var wave := r.waveRT.Device? && r.waveRT.room && |r.wave| < 260;
      Has(BothFilters(cache, r), r.topo) && Has(BothFilters(cache, r), r.wave) <==>
      && (Has(cache, r.topo) || topology || (r.topo == r.wave && wave))
      && (Has(cache, r.wave) || wave || (r.topo == r.wave && topology))
  {
    var c := WithFilter(cache, r.topo, r.topology);
    WithFilterHas(cache, r.topo, r.topology, r.topo);
    WithFilterHas(cache, r.topo, r.topology, r.wave);
    WithFilterHas(c, r.wave, r.waveRT, r.topo);
    WithFilterHas(c, r.wave, r.waveRT, r.wave);
  }

  /** Two new filters are cached one after the other, each under its name with its own interfaces. */
  lemma {:induction false} BothEntries(cache: seq<Minipair>, r: Request)
    requires !Has(cache, r.topo) && !Has(cache, r.wave) && r.topo != r.wave
    requires Fits(r.topo, r.topology) && Fits(r.wave, r.waveRT)
    ensures var t, w := r.topology, r.waveRT;
      BothFilters(cache, r) == cache
        + [Minipair(r.topo, t.port, t.miniport, t.power, t.change), Minipair(r.wave, w.port, w.miniport, w.power, w.change)]
  {
    WithFilterHas(cache, r.topo, r.topology, r.wave);
  }

  /** An installation that succeeds although its topology filter is nowhere. */
  lemma {:induction false} SuccessCanHideAFailure()
    ensures var r := Request("topo", "wave", [], NoInterface, Device(1, 2, None, None, true), 0, true, true, true);
      Succeeds([], r) && !Has(BothFilters([], r), r.topo)
  {
    var r := Request("topo", "wave", [], NoInterface, Device(1, 2, None, None, true), 0, true, true, true);
    BothAreCachedIff([], r);
    WithFilterHas(WithFilter([], r.topo, r.topology), r.wave, r.waveRT, r.wave);
    assert |"wave"| == 4;
    assert "topo"[0] != "wave"[0];
  }

  // ---------- the cache as a map ----------

  /** Looking a name up returns what was cached under it. */
  function AsMap(cache: seq<Minipair>): map<string, Minipair> {
    if cache == [] then map[] else AsMap(cache[..|cache| - 1])[cache[|cache| - 1].name := cache[|cache| - 1]]
  }

  lemma {:induction false} LookupIsMapLookup(cache: seq<Minipair>, name: string)
    requires Unique(cache)
    ensures name in AsMap(cache) <==> First(cache, name) < |cache|
    ensures name in AsMap(cache) ==> AsMap(cache)[name] == cache[First(cache, name)]
  {
    if cache != [] {
      LookupIsMapLookup(cache[..|cache| - 1], name);
    }
  }

  lemma {:induction false} RemovalKeepsUnique(cache: seq<Minipair>, name: string)
    requires Unique(cache)
    ensures Unique(Without(cache, name)) && !Has(Without(cache, name), name)
    ensures forall other :: other != name ==> (Has(Without(cache, name), other) <==> Has(cache, other))
  {
    var i := First(cache, name);
    if i < |cache| {
      var r := Without(cache, name);
      assert forall j :: 0 <= j < |r| ==> r[j] == cache[if j < i then j else j + 1];
      assert cache == cache[..i] + ([cache[i]] + cache[i + 1..]);
      forall other | other != name ensures Has(r, other) <==> Has(cache, other) {
        HasAppend(cache[..i], cache[i + 1..], other);
        HasAppend([cache[i]], cache[i + 1..], other);
        HasAppend(cache[..i], [cache[i]] + cache[i + 1..], other);
      }
    }
  }

  lemma {:induction false} RemovalOfBoth(cache: seq<Minipair>, topo: string, wave: string)
    ensures var c := Without(Without(cache, wave), topo); Unique(cache) ==> Unique(c) && !Has(c, topo) && !Has(c, wave)
  {
    if Unique(cache) {
      RemovalKeepsUnique(cache, wave);
      RemovalKeepsUnique(Without(cache, wave), topo);
    }
  }

  /** Removing a name removes it, and only it, from the map. */
  lemma {:induction false} RemovalIsMapRemoval(cache: seq<Minipair>, name: string)
    requires Unique(cache)
    ensures AsMap(Without(cache, name)) == AsMap(cache) - {name}
  {
    var w, i := Without(cache, name), First(cache, name);
    RemovalKeepsUnique(cache, name);
    forall other
      ensures other in AsMap(w) <==> other in AsMap(cache) && other != name
      ensures other in AsMap(w) ==> AsMap(w)[other] == AsMap(cache)[other]
    {
      LookupIsMapLookup(cache, other);
      LookupIsMapLookup(w, other);
      SameEntry(cache, name, other);
    }
  }

  lemma {:induction false} SameEntry(cache: seq<Minipair>, name: string, other: string)
    requires Unique(cache)
    ensures var w := Without(cache, name); var i, j := First(cache, other), First(w, other);
      (j < |w| <==> i < |cache| && other != name) && (j < |w| ==> w[j] == cache[i])
  {
    var w, k := Without(cache, name), First(cache, name);
    var i := First(cache, other);
    RemovalKeepsUnique(cache, name);
    if i < |cache| && other != name {
      assert w[if i < k then i else i - 1] == cache[i];
    } else {
      assert !Has(w, other);
    }
  }

  // ---------- the operations ----------

  /** The two interfaces of a filter. */
  datatype Filter = Filter(port: Unknown, miniport: Unknown)

  function Ids(f: Option<Filter>): seq<Unknown> {
    if f.Some? then [f.value.port, f.value.miniport] else []
  }

  /** The filter that stands under a name in the cache, or was just made for it, if any. */
  function FilterOf(cache: seq<Minipair>, name: string, d: Install): Option<Filter> {
    if Has(cache, name) then
      var i := First(cache, name);
      Some(Filter(cache[i].port, cache[i].miniport))
    else if d.Device? then Some(Filter(d.port, d.miniport))
    else None
  }

  /** What was installed under a name is what a later lookup finds. */
  lemma {:induction false} InstalledIsFound(cache: seq<Minipair>, name: string, d: Install)
    requires !Has(cache, name) && Fits(name, d)
    ensures FilterOf(WithFilter(cache, name, d), name, NoInterface) == Some(Filter(d.port, d.miniport))
  {
    var c := cache + [EntryFor(name, d)];
    assert c[|cache|].name == name && Has(c, name);
    assert First(c, name) == |cache|;
  }

  /** What was cached stays what a lookup finds, whatever is installed under another name. */
  lemma {:induction false} OthersAreStillFound(cache: seq<Minipair>, name: string, d: Install, other: string)
    requires Has(cache, other)
    ensures FilterOf(WithFilter(cache, name, d), other, NoInterface) == FilterOf(cache, other, NoInterface)
  {
    WithFilterHas(cache, name, d, other);
    var i := First(cache, other);
    assert WithFilter(cache, name, d)[i] == cache[i];
    assert First(WithFilter(cache, name, d), other) == i;
  }

  /** The port that is newly registered for a filter, if any. */
  function NewPort(cache: seq<Minipair>, name: string, d: Install): seq<Unknown> {
    if !Has(cache, name) && d.Device? then [d.port] else []
  }

  function NewPorts(cache: seq<Minipair>, r: Request): seq<Unknown> {
    NewPort(cache, r.topo, r.topology) + NewPort(WithFilter(cache, r.topo, r.topology), r.wave, r.waveRT)
  }

  /** The port of each filter that was not cached and could be made. */
  lemma {:induction false} NewPortsByName(cache: seq<Minipair>, r: Request, u: Unknown)
    ensures var cached := Has(cache, r.wave)
        || (r.wave == r.topo && r.topology.Device? && r.topology.room && |r.topo| < 260);
      Occurrences(NewPorts(cache, r), u) ==
      (if !Has(cache, r.topo) && r.topology.Device? && r.topology.port == u then 1 else 0)
      + (if !cached && r.waveRT.Device? && r.waveRT.port == u then 1 else 0)
  {
    WithFilterHas(cache, r.topo, r.topology, r.wave);
    OccurrencesAppend(NewPort(cache, r.topo, r.topology), NewPort(WithFilter(cache, r.topo, r.topology), r.wave, r.waveRT), u);
  }

  /** Of the newly registered ports, those that can be unregistered, and those that cannot. */
  function GonePorts(cache: seq<Minipair>, r: Request): seq<Unknown> {
    (if r.topoLeaves then NewPort(cache, r.topo, r.topology) else [])
    + (if r.waveLeaves then NewPort(WithFilter(cache, r.topo, r.topology), r.wave, r.waveRT) else [])
  }

  function StayingPorts(cache: seq<Minipair>, r: Request): seq<Unknown> {
    (if r.topoLeaves then [] else NewPort(cache, r.topo, r.topology))
    + (if r.waveLeaves then [] else NewPort(WithFilter(cache, r.topo, r.topology), r.wave, r.waveRT))
  }

  /** Of those ports, the ones whose own filter cannot be unregistered. */
  lemma {:induction false} StayingPortsByName(cache: seq<Minipair>, r: Request, u: Unknown)
    ensures var cached := Has(cache, r.wave)
        || (r.wave == r.topo && r.topology.Device? && r.topology.room && |r.topo| < 260);
      Occurrences(StayingPorts(cache, r), u) ==
      (if !r.topoLeaves && !Has(cache, r.topo) && r.topology.Device? && r.topology.port == u then 1 else 0)
      + (if !r.waveLeaves && !cached && r.waveRT.Device? && r.waveRT.port == u then 1 else 0)
  {
    WithFilterHas(cache, r.topo, r.topology, r.wave);
    OccurrencesAppend(if r.topoLeaves then [] else NewPort(cache, r.topo, r.topology),
      if r.waveLeaves then [] else NewPort(WithFilter(cache, r.topo, r.topology), r.wave, r.waveRT), u);
  }

  lemma {:induction false} PortsGoOrStay(cache: seq<Minipair>, r: Request, u: Unknown)
    ensures Occurrences(NewPorts(cache, r), u) == Occurrences(GonePorts(cache, r), u) + Occurrences(StayingPorts(cache, r), u)
  {
    var t, w := NewPort(cache, r.topo, r.topology), NewPort(WithFilter(cache, r.topo, r.topology), r.wave, r.waveRT);
    OccurrencesAppend(t, w, u);
    OccurrencesAppend(if r.topoLeaves then t else [], if r.waveLeaves then w else [], u);
    OccurrencesAppend(if r.topoLeaves then [] else t, if r.waveLeaves then [] else w, u);
  }

  /** A connection that is registered: from a filter's pin to another one's. */
  datatype Link = Link(from: Unknown, fromPin: nat, to: Unknown, toPin: nat)

  function LinkOf(topology: Unknown, wave: Unknown, c: PhysicalConnection): Link {
    match c
    case TopologyOutput(t, w) => Link(topology, t, wave, w)
    case WaveOutput(t, w) => Link(wave, w, topology, t)
  }

  function Links(topology: Unknown, wave: Unknown, table: seq<PhysicalConnection>): set<Link> {
    set i | 0 <= i < |table| :: LinkOf(topology, wave, table[i])
  }

  /** The connections by their pins: an output pin of one filter to a pin of the other one. */
  lemma {:induction false} LinksByPin(topology: Unknown, wave: Unknown, table: seq<PhysicalConnection>)
    ensures forall i :: 0 <= i < |table| ==>
              (if table[i].TopologyOutput? then Link(topology, table[i].topologyPin, wave, table[i].wavePin)
               else Link(wave, table[i].wavePin, topology, table[i].topologyPin)) in Links(topology, wave, table)
    ensures forall l :: l in Links(topology, wave, table) ==>
              exists i :: 0 <= i < |table| &&
                l == if table[i].TopologyOutput? then Link(topology, table[i].topologyPin, wave, table[i].wavePin)
                     else Link(wave, table[i].wavePin, topology, table[i].topologyPin)
  {
    forall i | 0 <= i < |table|
      ensures LinkOf(topology, wave, table[i]) in Links(topology, wave, table)
      ensures LinkOf(topology, wave, table[i]) ==
              if table[i].TopologyOutput? then Link(topology, table[i].topologyPin, wave, table[i].wavePin)
              else Link(wave, table[i].wavePin, topology, table[i].topologyPin)
    {
    }
  }

  lemma {:induction false} OneMoreLink(topology: Unknown, wave: Unknown, table: seq<PhysicalConnection>, i: nat)
    requires i < |table|
    ensures Links(topology, wave, table[..i + 1]) == Links(topology, wave, table[..i]) + {LinkOf(topology, wave, table[i])}
  {
    var more := Links(topology, wave, table[..i + 1]);
    forall l | l in more ensures l in Links(topology, wave, table[..i]) + {LinkOf(topology, wave, table[i])} {
      var j :| 0 <= j < i + 1 && l == LinkOf(topology, wave, table[..i + 1][j]);
      assert j < i ==> table[..i][j] == table[..i + 1][j];
    }
    forall l | l in Links(topology, wave, table[..i]) ensures l in more {
      var j :| 0 <= j < i && l == LinkOf(topology, wave, table[..i][j]);
      assert table[..i + 1][j] == table[..i][j];
    }
    assert table[..i + 1][i] == table[i];
  }

  /** The connections that an attempt to connect two filters leaves. */
  function Connected(links: set<Link>, topology: Unknown, wave: Unknown, table: seq<PhysicalConnection>, made: nat, disconnects: bool): set<Link> {
    if made >= |table| then links + Links(topology, wave, table)
    else if disconnects then links - Links(topology, wave, table)
    else links + Links(topology, wave, table[..made])
  }

  lemma {:induction false} TakenBack(links: set<Link>, topology: Unknown, wave: Unknown, table: seq<PhysicalConnection>, made: nat)
    requires made <= |table|
    ensures links + Links(topology, wave, table[..made]) - Links(topology, wave, table) == links - Links(topology, wave, table)
  {
    forall l | l in Links(topology, wave, table[..made]) ensures l in Links(topology, wave, table) {
      var j :| 0 <= j < made && l == LinkOf(topology, wave, table[..made][j]);
      assert table[..made][j] == table[j];
    }
  }

  /** Which of the optional outputs the caller asks for. */
  datatype Wanted = Wanted(topo: bool, wave: bool, miniTopo: bool, miniWave: bool)

  datatype Outputs = Outputs(topo: Option<Unknown>, wave: Option<Unknown>, miniTopo: Option<Unknown>, miniWave: Option<Unknown>)

  function Given(o: Outputs): seq<Unknown> {
    Optional(o.topo) + Optional(o.wave) + Optional(o.miniTopo) + Optional(o.miniWave)
  }

  /** What is handed out is one reference for each output that is set. */
  lemma {:induction false} GivenByName(o: Outputs, u: Unknown)
    ensures Occurrences(Given(o), u) ==
            (if o.topo == Some(u) then 1 else 0) + (if o.wave == Some(u) then 1 else 0)
            + (if o.miniTopo == Some(u) then 1 else 0) + (if o.miniWave == Some(u) then 1 else 0)
  {
    OccurrencesAppend(Optional(o.topo) + Optional(o.wave) + Optional(o.miniTopo), Optional(o.miniWave), u);
    OccurrencesAppend(Optional(o.topo) + Optional(o.wave), Optional(o.miniTopo), u);
    OccurrencesAppend(Optional(o.topo), Optional(o.wave), u);
  }

  function PortOut(wanted: bool, f: Option<Filter>): Option<Unknown> {
    if wanted && f.Some? then Some(f.value.port) else None
  }

  function MiniportOut(wanted: bool, f: Option<Filter>): Option<Unknown> {
    if wanted && f.Some? then Some(f.value.miniport) else None
  }

  /** From a to b, each object is counted once more for each time it occurs in us. */
  ghost predicate CountsMove(a: Counts, b: Counts, us: seq<Unknown>) {
    forall u :: Count(b, u) == Count(a, u) + Occurrences(us, u)
  }

  lemma {:induction false} Registered(c: Counts, ports: seq<Unknown>)
    ensures CountsMove(c, ReferenceAll(c, ports, 1), ports)
  {
    forall u ensures Count(ReferenceAll(c, ports, 1), u) == Count(c, u) + Occurrences(ports, u) {
      ReferenceAllCounts(c, ports, 1, u);
    }
  }

  /** Unregistering what can be unregistered leaves the rest registered, and every other registration as it was. */
  lemma {:induction false} Unregistered(c: Counts, cache: seq<Minipair>, r: Request)
    ensures CountsMove(c, ReferenceAll(ReferenceAll(c, NewPorts(cache, r), 1), GonePorts(cache, r), -1), StayingPorts(cache, r))
  {
    var d := ReferenceAll(c, NewPorts(cache, r), 1);
    forall u ensures Count(ReferenceAll(d, GonePorts(cache, r), -1), u) == Count(c, u) + Occurrences(StayingPorts(cache, r), u) {
      ReferenceAllCounts(c, NewPorts(cache, r), 1, u);
      ReferenceAllCounts(d, GonePorts(cache, r), -1, u);
      PortsGoOrStay(cache, r, u);
    }
  }

  lemma {:induction false} StatusOfInstall(cache: seq<Minipair>, r: Request)
    ensures var c := WithFilter(cache, r.topo, r.topology);
      Succeeds(cache, r) ==
      if FilterOf(cache, r.topo, r.topology).Some? && FilterOf(c, r.wave, r.waveRT).Some? then Connects(r)
      else Has(c, r.wave) || Fits(r.wave, r.waveRT)
  {
  }

  /** The registrations that an installation leaves. */
  function AfterPorts(c: Counts, cache: seq<Minipair>, r: Request, ok: bool): Counts {
    var d := ReferenceAll(c, NewPorts(cache, r), 1);
    if ok then d else ReferenceAll(d, GonePorts(cache, r), -1)
  }

  lemma {:induction false} Concluded(cache: seq<Minipair>, c: Counts, r: Request)
    ensures Unique(cache) ==> Unique(BothFilters(cache, r))
    ensures CountsMove(c, AfterPorts(c, cache, r, true), NewPorts(cache, r))
    ensures CountsMove(c, AfterPorts(c, cache, r, false), StayingPorts(cache, r))
    ensures !Succeeds(cache, r) ==> Undone(cache, r) == cache
  {
    BothFiltersUnique(cache, r);
    Registered(c, NewPorts(cache, r));
    Unregistered(c, cache, r);
    if !Succeeds(cache, r) {
      FailureRestoresTheCache(cache, r);
    }
  }

  class AdapterCommon {
    var cache: seq<Minipair>
    var refs: Counts
    var registrations: Counts
    var links: set<Link>

    constructor (refs: Counts, registrations: Counts)
      ensures cache == [] && this.refs == refs && this.registrations == registrations && links == {}
    {
      cache := [];
      this.refs := refs;
      this.registrations := registrations;
      links := {};
    }

    ghost function Books(): Ledger
      reads this
    {
      Ledger(cache, refs)
    }

    method Find(name: string) returns (i: nat)
      ensures i == First(cache, name)
      ensures i < |cache| <==> Has(cache, name)
    {
      i := 0;
      while i < |cache| && cache[i].name != name
        invariant i <= |cache| && forall j :: 0 <= j < i ==> cache[j].name != name
      {
        i := i + 1;
      }
    }

    method AddRefs(us: seq<Unknown>)
      modifies this`refs
      ensures Gives(old(Books()), Books(), us)
    {
      TakingGives(Books(), us);
      refs := ReferenceAll(refs, us, 1);
    }

    method Releases(us: seq<Unknown>)
      modifies this`refs
      ensures Gives(Books(), old(Books()), us)
    {
      TakingGives(Books(), us);
      refs := ReferenceAll(refs, us, -1);
    }

    /** The caller of a successful lookup gets a reference to each of the two interfaces. */
    method GetCachedSubdevice(name: string) returns (f: Option<Filter>)
      modifies this`refs
      ensures f == FilterOf(cache, name, NoInterface) && (f.Some? <==> Has(cache, name))
      ensures f.Some? ==> exists i :: 0 <= i < |cache| && cache[i].name == name
                            && f.value.port == cache[i].port && f.value.miniport == cache[i].miniport
      ensures Gives(old(Books()), Books(), Ids(f))
    {
      var i := Find(name);
      if i < |cache| {
        f := Some(Filter(cache[i].port, cache[i].miniport));
      } else {
        f := None;
      }
      AddRefs(Ids(f));
    }

    /** The new entry takes its own references; without memory, or with too long a name, nothing changes. */
    method CacheSubdevice(name: string, d: Install) returns (ok: bool)
      requires d.Device?
      modifies this`cache, this`refs
      ensures ok == (d.room && |name| < 260)
      ensures cache == if ok then old(cache) + [Minipair(name, d.port, d.miniport, d.power, d.change)] else old(cache)
      ensures Gives(old(Books()), Books(), [])
    {
      ok := d.room && |name| < MAX_PATH;
      if ok {
        var e := Minipair(name, d.port, d.miniport, d.power, d.change);
        CachingGivesNothing(Books(), e);
        refs := ReferenceAll(refs, Refs(e), 1);
        cache := cache + [e];
      }
    }

    /** A name that was not cached is cached, and the same interfaces come back when it is looked up. */
    method CacheAndFind(name: string, d: Install) returns (f: Option<Filter>)
      requires d.Device? && !Has(cache, name)
      modifies this`cache, this`refs
      ensures f == if d.room && |name| < 260 then Some(Filter(d.port, d.miniport)) else None
    {
      ghost var c := cache;
      var ok := CacheSubdevice(name, d);
      if ok {
        InstalledIsFound(c, name, d);
        assert cache == WithFilter(c, name, d);
      }
      f := GetCachedSubdevice(name);
    }

    /** The first entry with the name goes, with the references it owns. */
    method RemoveCachedSubdevice(name: string) returns (removed: bool)
      modifies this`cache, this`refs
      ensures removed == Has(old(cache), name) && cache == Without(old(cache), name)
      ensures Gives(old(Books()), Books(), [])
    {
      var i := Find(name);
      removed := i < |cache|;
      if removed {
        RemovingGivesNothing(Books(), i);
        refs := ReferenceAll(refs, Refs(cache[i]), -1);
        cache := cache[..i] + cache[i + 1..];
      }
    }

    method RemoveHead()
      requires cache != []
      modifies this`cache, this`refs
      ensures cache == old(cache)[1..] && Gives(old(Books()), Books(), [])
    {
      RemovingGivesNothing(Books(), 0);
      refs := ReferenceAll(refs, Refs(cache[0]), -1);
      assert cache[..0] + cache[1..] == cache[1..];
      cache := cache[1..];
    }

    /** Afterwards the only references left are those held outside the cache. */
    method EmptySubdeviceCache()
      modifies this`cache, this`refs
      ensures cache == [] && Gives(old(Books()), Books(), [])
      ensures forall u :: Count(refs, u) == old(Loose(Books(), u))
    {
      while cache != []
        invariant Gives(old(Books()), Books(), [])
        decreases |cache|
      {
        RemoveHead();
      }
      assert forall u :: Loose(Books(), u) == Count(refs, u);
    }

    /**
      Makes a port and a miniport, initializes and registers them. On success the caller gets a reference to each;
      whichever call fails, nothing that was made is kept.
    */
    method InstallSubdevice(d: Install) returns (f: Option<Filter>)
      modifies this`refs, this`registrations
      ensures f == if d.Device? then Some(Filter(d.port, d.miniport)) else None
      ensures Gives(old(Books()), Books(), Ids(f))
      ensures registrations == ReferenceAll(old(registrations), if d.Device? then [d.port] else [], 1)
    {
      f := None;
      if d.NoInterface? || d.NoPort? {
        return;
      }
      ghost var before := Books();
      var made := if d.NoMiniport? then [d.port] else [d.port, d.miniport];
      AddRefs(made);
      ghost var during := Books();
      if d.Device? {
        ReferenceOne(registrations, d.port, 1);
        registrations := Reference(registrations, d.port, 1);
        f := Some(Filter(d.port, d.miniport));
      }
      AddRefs(Ids(f));
      GivesBoth(before, during, Books(), made, Ids(f));
      ghost var after := Books();
      Releases(made);
      GivesBack(before, after, Books(), made, Ids(f));
    }

    /** The steps that the installation runs for the topology filter and again for the wave filter. */
    method FindOrInstall(name: string, d: Install) returns (f: Option<Filter>, created: bool, ok: bool)
      modifies this`cache, this`refs, this`registrations
      ensures f == FilterOf(old(cache), name, d) && created == !Has(old(cache), name)
      ensures ok == (Has(old(cache), name) || Fits(name, d))
      ensures cache == WithFilter(old(cache), name, d)
      ensures Gives(old(Books()), Books(), Ids(f))
      ensures registrations == ReferenceAll(old(registrations), NewPort(old(cache), name, d), 1)
    {
      ghost var before := Books();
      f := GetCachedSubdevice(name);
      ok, created := f.Some?, f.None?;
      if created {
        ghost var looked := Books();
        f := InstallSubdevice(d);
        ok := f.Some?;
        GivesBoth(before, looked, Books(), [], Ids(f));
        ghost var installed := Books();
        if ok {
          ok := CacheSubdevice(name, d);
          GivesBoth(before, installed, Books(), [] + Ids(f), []);
          assert [] + Ids(f) + [] == Ids(f);
        }
        assert [] + Ids(f) == Ids(f);
      }
    }

    /** Takes a new filter back; it stays registered if it cannot be unregistered. */
    method Undo(name: string, created: bool, f: Option<Filter>, leaves: bool)
      modifies this`cache, this`refs, this`registrations
      ensures cache == if created && f.Some? then Without(old(cache), name) else old(cache)
      ensures registrations ==
              ReferenceAll(old(registrations), if created && f.Some? && leaves then [f.value.port] else [], -1)
      ensures Gives(old(Books()), Books(), [])
    {
      if created && f.Some? {
        var _ := UnregisterSubdevice(Some(f.value.port), leaves);
        var _ := RemoveCachedSubdevice(name);
      }
    }

    method FindOrInstallBoth(r: Request)
      returns (t: Option<Filter>, topoCreated: bool, w: Option<Filter>, waveCreated: bool, status: bool)
      modifies this`cache, this`refs, this`registrations
      ensures cache == BothFilters(old(cache), r)
      ensures var c := WithFilter(old(cache), r.topo, r.topology);
        && t == FilterOf(old(cache), r.topo, r.topology) && topoCreated == !Has(old(cache), r.topo)
        && w == FilterOf(c, r.wave, r.waveRT) && waveCreated == !Has(c, r.wave)
        && status == (Has(c, r.wave) || Fits(r.wave, r.waveRT))
      ensures Gives(old(Books()), Books(), Ids(t) + Ids(w))
      ensures registrations == ReferenceAll(old(registrations), NewPorts(old(cache), r), 1)
    {
      ghost var s0 := Books();
      ghost var c0 := cache;
      var ok;
      t, topoCreated, ok := FindOrInstall(r.topo, r.topology);
      ghost var s1 := Books();
      ghost var c1 := cache;
      w, waveCreated, status := FindOrInstall(r.wave, r.waveRT);
      GivesBoth(s0, s1, Books(), Ids(t), Ids(w));
      ReferenceAllAppend(old(registrations), NewPort(c0, r.topo, r.topology), NewPort(c1, r.wave, r.waveRT), 1);
    }

    /** Takes back what FindOrInstallBoth made. */
    method UndoBoth(r: Request, ghost c0: seq<Minipair>, t: Option<Filter>, topoCreated: bool, w: Option<Filter>, waveCreated: bool)
      requires cache == BothFilters(c0, r) && topoCreated == !Has(c0, r.topo) && t == FilterOf(c0, r.topo, r.topology)
      requires waveCreated == !Has(WithFilter(c0, r.topo, r.topology), r.wave)
      requires w == FilterOf(WithFilter(c0, r.topo, r.topology), r.wave, r.waveRT)
      modifies this`cache, this`refs, this`registrations
      ensures cache == Undone(c0, r)
      ensures Gives(old(Books()), Books(), [])
      ensures registrations == ReferenceAll(old(registrations), GonePorts(c0, r), -1)
    {
      ghost var s0 := Books();
      Undo(r.topo, topoCreated, t, r.topoLeaves);
      ghost var s1 := Books();
      Undo(r.wave, waveCreated, w, r.waveLeaves);
      GivesBoth(s0, s1, Books(), [], []);
      ghost var c1 := WithFilter(c0, r.topo, r.topology);
      ReferenceAllAppend(old(registrations), if r.topoLeaves then NewPort(c0, r.topo, r.topology) else [],
        if r.waveLeaves then NewPort(c1, r.wave, r.waveRT) else [], -1);
    }

    /** Registers the connections one by one; after a failure all of the table's are taken back, if that can be done at all. */
    method ConnectTopologies(topology: Unknown, wave: Unknown, table: seq<PhysicalConnection>, made: nat, disconnects: bool) returns (ok: bool)
      modifies this`links
      ensures ok == (made >= |table|) && links == Connected(old(links), topology, wave, table, made, disconnects)
      ensures ok ==> links == old(links) + Links(topology, wave, table)
      ensures !ok && disconnects ==> links == old(links) - Links(topology, wave, table)
      ensures !ok && !disconnects ==> links == old(links) + Links(topology, wave, table[..made])
    {
      ok := true;
      var i := 0;
      while i < |table| && ok
        invariant i <= |table| && i <= made && (!ok ==> i == made < |table|)
        invariant links == old(links) + Links(topology, wave, table[..i])
        decreases |table| - i, ok
      {
        ok := i < made;
        if ok {
          OneMoreLink(topology, wave, table, i);
          links := links + {LinkOf(topology, wave, table[i])};
          i := i + 1;
        }
      }
      assert i == |table| ==> table[..i] == table;
      if !ok {
        TakenBack(old(links), topology, wave, table, made);
        var _ := DisconnectTopologies(topology, wave, table, disconnects);
      }
    }

    /** Takes the table's connections back, unless the port does not answer for the interface to do so. */
    method DisconnectTopologies(topology: Unknown, wave: Unknown, table: seq<PhysicalConnection>, disconnects: bool) returns (ok: bool)
      modifies this`links
      ensures ok == disconnects && links == if disconnects then old(links) - Links(topology, wave, table) else old(links)
    {
      ok := disconnects;
      if ok {
        var i := 0;
        while i < |table|
          invariant i <= |table| && links == old(links) - Links(topology, wave, table[..i])
        {
          OneMoreLink(topology, wave, table, i);
          links := links - {LinkOf(topology, wave, table[i])};
          i := i + 1;
        }
        assert table[..i] == table;
      }
    }

    /** Hands out what was asked for, or takes everything back. */
    method Conclude(r: Request, want: Wanted, ok: bool, ghost c0: seq<Minipair>,
                    t: Option<Filter>, topoCreated: bool, w: Option<Filter>, waveCreated: bool) returns (out: Outputs)
      requires cache == BothFilters(c0, r) && topoCreated == !Has(c0, r.topo) && t == FilterOf(c0, r.topo, r.topology)
      requires waveCreated == !Has(WithFilter(c0, r.topo, r.topology), r.wave)
      requires w == FilterOf(WithFilter(c0, r.topo, r.topology), r.wave, r.waveRT)
      modifies this`cache, this`refs, this`registrations
      ensures cache == if ok then old(cache) else Undone(c0, r)
      ensures registrations == if ok then old(registrations) else ReferenceAll(old(registrations), GonePorts(c0, r), -1)
      ensures out ==
              if ok then
                Outputs(PortOut(want.topo, t), PortOut(want.wave, w), MiniportOut(want.miniTopo, t), MiniportOut(want.miniWave, w))
              else Outputs(None, None, None, None)
      ensures Gives(old(Books()), Books(), Given(out))
    {
      if ok {
        out := Outputs(PortOut(want.topo, t), PortOut(want.wave, w), MiniportOut(want.miniTopo, t), MiniportOut(want.miniWave, w));
        AddRefs(Given(out));
      } else {
        out := Outputs(None, None, None, None);
        UndoBoth(r, c0, t, topoCreated, w, waveCreated);
        assert Given(out) == [];
      }
    }

    /**
      A failure leaves the cache as it was and hands nothing out; of the new registrations only those stay that
      cannot be withdrawn. A success leaves the new entries, the new registrations and the table's connections and
      hands out a reference for each interface that was asked for. Either way every reference is accounted for.
    */
    method InstallEndpointFilters(r: Request, want: Wanted) returns (ok: bool, out: Outputs)
      modifies this
      ensures ok == Succeeds(old(cache), r)
      ensures cache == if ok then BothFilters(old(cache), r) else old(cache)
      ensures Unique(old(cache)) ==> Unique(cache)
      ensures CountsMove(old(registrations), registrations, if ok then NewPorts(old(cache), r) else StayingPorts(old(cache), r))
      ensures var t := FilterOf(old(cache), r.topo, r.topology);
        var w := FilterOf(WithFilter(old(cache), r.topo, r.topology), r.wave, r.waveRT);
        && out.topo == (if ok && want.topo && t.Some? then Some(t.value.port) else None)
        && out.wave == (if ok && want.wave && w.Some? then Some(w.value.port) else None)
        && out.miniTopo == (if ok && want.miniTopo && t.Some? then Some(t.value.miniport) else None)
        && out.miniWave == (if ok && want.miniWave && w.Some? then Some(w.value.miniport) else None)
        && links == if t.Some? && w.Some? then
                      Connected(old(links), t.value.port, w.value.port, r.table, r.made, r.disconnects)
                    else old(links)
      ensures Gives(old(Books()), Books(), Given(out))
    {
      ghost var s0 := Books();
      var t, w;
      ok, out, t, w := TryInstall(r, want);
      ghost var s4 := Books();
      Releases(Ids(t) + Ids(w));
      GivesBack(s0, s4, Books(), Ids(t) + Ids(w), Given(out));
      Concluded(old(cache), old(registrations), r);
    }

    /** The installation up to the point where its own references are dropped. */
    method TryInstall(r: Request, want: Wanted) returns (ok: bool, out: Outputs, t: Option<Filter>, w: Option<Filter>)
      modifies this
      ensures ok == Succeeds(old(cache), r)
      ensures cache == if ok then BothFilters(old(cache), r) else Undone(old(cache), r)
      ensures registrations == AfterPorts(old(registrations), old(cache), r, ok)
      ensures t == FilterOf(old(cache), r.topo, r.topology)
      ensures w == FilterOf(WithFilter(old(cache), r.topo, r.topology), r.wave, r.waveRT)
      ensures out ==
              if ok then
                Outputs(PortOut(want.topo, t), PortOut(want.wave, w), MiniportOut(want.miniTopo, t), MiniportOut(want.miniWave, w))
              else Outputs(None, None, None, None)
      ensures links == if t.Some? && w.Some? then
                         Connected(old(links), t.value.port, w.value.port, r.table, r.made, r.disconnects)
                       else old(links)
      ensures Gives(old(Books()), Books(), Ids(t) + Ids(w) + Given(out))
    {
      ghost var s0, c0 := Books(), cache;
      var topoCreated, waveCreated;
      t, topoCreated, w, waveCreated, ok := InstallAndConnect(r);
      ghost var s2 := Books();
      out := Conclude(r, want, ok, c0, t, topoCreated, w, waveCreated);
      GivesBoth(s0, s2, Books(), Ids(t) + Ids(w), Given(out));
    }

    method InstallAndConnect(r: Request)
      returns (t: Option<Filter>, topoCreated: bool, w: Option<Filter>, waveCreated: bool, ok: bool)
      modifies this
      ensures ok == Succeeds(old(cache), r) && cache == BothFilters(old(cache), r)
      ensures var c := WithFilter(old(cache), r.topo, r.topology);
        && t == FilterOf(old(cache), r.topo, r.topology) && topoCreated == !Has(old(cache), r.topo)
        && w == FilterOf(c, r.wave, r.waveRT) && waveCreated == !Has(c, r.wave)
      ensures links == if t.Some? && w.Some? then
                         Connected(old(links), t.value.port, w.value.port, r.table, r.made, r.disconnects)
                       else old(links)
      ensures Gives(old(Books()), Books(), Ids(t) + Ids(w))
      ensures registrations == ReferenceAll(old(registrations), NewPorts(old(cache), r), 1)
    {
      StatusOfInstall(cache, r);
      t, topoCreated, w, waveCreated, ok := FindOrInstallBoth(r);
      if t.Some? && w.Some? {
        ok := ConnectTopologies(t.value.port, w.value.port, r.table, r.made, r.disconnects);
      }
    }

    /**
      Afterwards neither name is cached, whatever the other calls answer; the caller keeps the references it was
      given. The connections and the registrations go as far as they can be withdrawn.
    */
    method RemoveEndpointFilters(topo: string, wave: string, table: seq<PhysicalConnection>, topology: Option<Unknown>, waveRT: Option<Unknown>,
      disconnects: bool, topoLeaves: bool, waveLeaves: bool)
      modifies this
      ensures cache == Without(Without(old(cache), wave), topo)
      ensures Unique(old(cache)) ==> Unique(cache) && !Has(cache, topo) && !Has(cache, wave)
      ensures Gives(old(Books()), Books(), [])
      ensures links == if topology.Some? && waveRT.Some? && disconnects then
                         old(links) - Links(topology.value, waveRT.value, table)
                       else old(links)
      ensures registrations == ReferenceAll(old(registrations),
                (if waveLeaves then Optional(waveRT) else []) + (if topoLeaves then Optional(topology) else []), -1)
    {
      if topology.Some? && waveRT.Some? {
        var _ := DisconnectTopologies(topology.value, waveRT.value, table, disconnects);
      }
      RemoveFilters(topo, wave, topology, waveRT, topoLeaves, waveLeaves);
      RemovalOfBoth(old(cache), topo, wave);
    }

    method RemoveFilters(topo: string, wave: string, topology: Option<Unknown>, waveRT: Option<Unknown>, topoLeaves: bool, waveLeaves: bool)
      modifies this`cache, this`refs, this`registrations
      ensures cache == Without(Without(old(cache), wave), topo)
      ensures Gives(old(Books()), Books(), [])
      ensures registrations == ReferenceAll(old(registrations),
                (if waveLeaves then Optional(waveRT) else []) + (if topoLeaves then Optional(topology) else []), -1)
    {
      ghost var s0 := Books();
      RemoveFilter(wave, waveRT, waveLeaves);
      ghost var s1 := Books();
      RemoveFilter(topo, topology, topoLeaves);
      GivesBoth(s0, s1, Books(), [], []);
      ghost var w, t := if waveLeaves then Optional(waveRT) else [], if topoLeaves then Optional(topology) else [];
      ReferenceAllAppend(old(registrations), w, t, -1);
    }

    /** One filter of the two. */
    method RemoveFilter(name: string, port: Option<Unknown>, leaves: bool)
      modifies this`cache, this`refs, this`registrations
      ensures cache == Without(old(cache), name) && Gives(old(Books()), Books(), [])
      ensures registrations == ReferenceAll(old(registrations), if leaves then Optional(port) else [], -1)
    {
      var _ := RemoveCachedSubdevice(name);
      var _ := UnregisterSubdevice(port, leaves);
    }

    /** Without a port there is nothing to do; otherwise the port must answer for the interface and accept the call. */
    method UnregisterSubdevice(port: Option<Unknown>, leaves: bool) returns (ok: bool)
      modifies this`registrations
      ensures ok == (port.None? || leaves)
      ensures registrations == ReferenceAll(old(registrations), if leaves then Optional(port) else [], -1)
    {
      ok := port.None? || leaves;
      if port.Some? && leaves {
        ReferenceOne(registrations, port.value, -1);
        registrations := Reference(registrations, port.value, -1);
      }
    }
  }
}
