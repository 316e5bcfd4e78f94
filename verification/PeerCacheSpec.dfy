/** The peer cache of pcache/pcache.go: the values it stores and what each operation means. */
module PeerCacheSpec {
  import opened Common

  datatype PerfInd = PerfInd(rtt: nat) {
    predicate LessThan(other: PerfInd) {
      rtt < other.rtt
    }
  }

  /** AddPeer is called without a measurement, so perf starts at the zero value. */
  datatype PeerInfo = PeerInfo(id: string, servName: string, servHash: string, perf: PerfInd)

  /** A cached peer. The tag identifies this entry: AddPeer may store the same peer ID twice. */
  datatype Entry = Entry(tag: nat, rcount: nat, info: PeerInfo)

  datatype Requirements = Requirements(hard: PerfInd, soft: PerfInd)

  /**
   * What one update learns about one entry: the ping result, and the requirements that the registry
   * lookup left behind, with or without an error: the error is logged and the pass goes on.
   */
  datatype Probe = Probe(rtt: nat, needs: Requirements) {
    function Judge(): (v: Verdict)
      ensures v == Fail <==> rtt == 0 || rtt > needs.hard.rtt
      ensures v == Good <==> 0 < rtt <= needs.hard.rtt && rtt <= needs.soft.rtt
    {
      if rtt == 0 || needs.hard.LessThan(PerfInd(rtt)) then Fail
      else if needs.soft.LessThan(PerfInd(rtt)) then Miss
      else Good
    }
  }

  datatype Verdict = Fail | Miss | Good

  /** One update's probes, by entry tag. */
  type Oracle = nat -> Probe

  const LEVELS: nat := 3
  const RMAX: nat := 3

  /** The levels and the next unused tag. */
  datatype Cache = Cache(levels: seq<seq<Entry>>, nextTag: nat) {
    ghost predicate Shaped() {
      |levels| == LEVELS
    }

    ghost function All(): multiset<Entry>
      requires Shaped()
    {
      multiset(levels[0]) + multiset(levels[1]) + multiset(levels[2])
    }
  }

  const EMPTY := Cache([[], [], []], 0)

  // --- The fate of one entry in one update, on its own ---

  /** First pass: the measured entry, or nothing when it must leave the cache. */
  function Measured(o: Oracle): Entry -> Option<Entry> {
    (e: Entry) =>
      var p := o(e.tag);
      var seen := e.(info := e.info.(perf := PerfInd(p.rtt)));
      match p.Judge()
      case Fail => None
      case Miss => Some(seen.(rcount := if e.rcount < 10 then 0 else e.rcount - 10))
      case Good => Some(seen.(rcount := if e.rcount < 100 then e.rcount + 1 else e.rcount))
  }

  /** Second pass: where a measured entry that started in level `from` ends up. */
  function Settled(from: nat, e: Entry): Option<(nat, Entry)> {
    if from == 0 then
      if e.rcount < 90 then Some((1, e.(rcount := 50))) else Some((0, e))
    else if from == 1 then
      if e.rcount > 90 then Some((0, e)) else if e.rcount < 10 then None else Some((1, e))
    else None
  }

  function Fate(from: nat, o: Oracle, e: Entry): Option<(nat, Entry)> {
    var m := Measured(o)(e);
    if m.None? then None else Settled(from, m.value)
  }

  /** The entry with which e of level `from` ends up in level `to`, if it does. */
  function Lands(from: nat, to: nat, o: Oracle): Entry -> Option<Entry> {
    (e: Entry) =>
      var f := Fate(from, o, e);
      if f.Some? && f.value.0 == to then Some(f.value.1) else None
  }

  /** Everything that ends up in level `to`, one starting entry at a time. */
  function Landing(levels: seq<seq<Entry>>, to: nat, o: Oracle): seq<Entry>
    requires |levels| == LEVELS
  {
    FilterMap(Lands(0, to, o), levels[0])
    + FilterMap(Lands(1, to, o), levels[1])
    + FilterMap(Lands(2, to, o), levels[2])
  }

  ghost predicate Sorted(s: seq<Entry>) {
    forall i, j :: 0 <= i < j < |s| ==> !s[j].info.perf.LessThan(s[i].info.perf)
  }

  /** What updateCache promises: each level holds what lands there, best RTT first. */
  ghost predicate Updated(before: seq<seq<Entry>>, o: Oracle, after: seq<seq<Entry>>) {
    |before| == LEVELS && |after| == LEVELS &&
    forall l :: 0 <= l < LEVELS ==> multiset(after[l]) == multiset(Landing(before, l, o)) && Sorted(after[l])
  }

  // --- The other operations ---

  function Added(c: Cache, info: PeerInfo): Cache
    requires c.Shaped()
  {
    Cache(c.levels[1 := c.levels[1] + [Entry(c.nextTag, 50, info)]], c.nextTag + 1)
  }

  /** rpfs: the last element takes the place of element i. */
  function SwapRemove<T>(s: seq<T>, i: nat): seq<T>
    requires i < |s|
  {
    s[i := s[|s| - 1]][..|s| - 1]
  }

  lemma MultisetSwap<T>(a: seq<T>, b: seq<T>)
    ensures multiset(a + b) == multiset(b + a)
  {}

  /** The rest of the slice, from i on, is what stood after i. */
  lemma SwapRemoveRest<T>(s: seq<T>, i: nat)
    requires i < |s|
    ensures SwapRemove(s, i)[..i] == s[..i]
    ensures multiset(SwapRemove(s, i)[i..]) == multiset(s[i + 1..])
  {
    var r := SwapRemove(s, i);
    if i < |s| - 1 {
      var middle, last := s[i + 1..|s| - 1], [s[|s| - 1]];
      assert r[i..] == last + middle;
      assert s[i + 1..] == middle + last;
      MultisetSwap(middle, last);
    } else {
      assert r[i..] == s[i + 1..] == [];
    }
  }

  lemma MultisetSplit<T>(l: seq<T>, x: T, r: seq<T>, r': seq<T>)
    requires multiset(r) == multiset(r')
    ensures multiset(l + r') == multiset(l + [x] + r) - multiset{x}
  {
    MultisetAround(l, x, r);
    assert multiset(l + r) == multiset(l) + multiset(r) == multiset(l + r');
  }

  lemma SwapRemoveKeeps<T>(s: seq<T>, i: nat)
    requires i < |s|
    ensures SwapRemove(s, i)[..i] == s[..i]
    ensures multiset(SwapRemove(s, i)[i..]) == multiset(s[i + 1..])
    ensures multiset(SwapRemove(s, i)) == multiset(s) - multiset{s[i]}
  {
    SwapRemoveRest(s, i);
    var r := SwapRemove(s, i);
    hide SwapRemove;
    assert s == s[..i] + [s[i]] + s[i + 1..];
    assert r == s[..i] + r[i..];
    MultisetSplit(s[..i], s[i], s[i + 1..], r[i..]);
  }

  /** Slot i gets the old last element, every other slot keeps its own, and the last is gone. */
  lemma SwapRemoveSlots<T>(s: seq<T>, i: nat)
    requires i < |s|
    ensures |SwapRemove(s, i)| == |s| - 1
    ensures forall k :: 0 <= k < |s| - 1 ==> SwapRemove(s, i)[k] == if k == i then s[|s| - 1] else s[k]
  {}

  /** The first of the leading RMAX slots that holds this peer ID. */
  function SlotOf(s: seq<Entry>, id: string, from: nat := 0): (r: Option<nat>)
    ensures r.Some? ==> from <= r.value < |s| && r.value < RMAX && s[r.value].info.id == id
    ensures r.Some? ==> forall k :: from <= k < r.value ==> s[k].info.id != id
    ensures r.None? ==> forall k :: from <= k < |s| && k < RMAX ==> s[k].info.id != id
    decreases |s| - from
  {
    if from >= |s| || from >= RMAX then None
    else if s[from].info.id == id then Some(from)
    else SlotOf(s, id, from + 1)
  }

  function Removed(c: Cache, id: string): (c': Cache)
    requires c.Shaped()
    ensures c'.Shaped()
  {
    var s0, s1 := SlotOf(c.levels[0], id), SlotOf(c.levels[1], id);
    if s0.Some? then c.(levels := c.levels[0 := SwapRemove(c.levels[0], s0.value)])
    else if s1.Some? then c.(levels := c.levels[1 := SwapRemove(c.levels[1], s1.value)])
    else c
  }

  /** The first entry of a level that offers this service. */
  function FirstOffering(s: seq<Entry>, hash: string): (r: Option<Entry>)
    ensures r.Some? ==> r.value in s && r.value.info.servHash == hash
    ensures r.Some? ==> exists i :: 0 <= i < |s| && s[i] == r.value
                                    && forall k :: 0 <= k < i ==> s[k].info.servHash != hash
    ensures r.None? <==> forall e :: e in s ==> e.info.servHash != hash
  {
    if s == [] then None
    else if s[0].info.servHash == hash then Some(s[0])
    else
      var r := FirstOffering(s[1..], hash);
      assert s == [s[0]] + s[1..];
      assert forall i :: 0 <= i < |s| - 1 ==> s[1..][i] == s[i + 1];
      r
  }

  lemma NoneOffering(hash: string)
    ensures FirstOffering([], hash) == None
  {}

  lemma OfferingFrom(s: seq<Entry>, hash: string, i: nat)
    requires i < |s|
    ensures FirstOffering(s[i..], hash)
         == if s[i].info.servHash == hash then Some(s[i]) else FirstOffering(s[i + 1..], hash)
    ensures s[0..] == s
  {
    assert s[i..][1..] == s[i + 1..];
  }

  function Selected(c: Cache, hash: string): Option<Entry>
    requires c.Shaped()
  {
    var top := FirstOffering(c.levels[0], hash);
    if top.Some? then top else FirstOffering(c.levels[1], hash)
  }
}
