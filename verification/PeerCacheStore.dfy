/** The PeerCache object, whose methods edit the levels in place under one lock. */
module PeerCacheStore {
  import opened Common
  import opened PeerCacheSpec

  function TagOf(e: Entry): Option<nat> {
    Some(e.tag)
  }

  function StaysTop(e: Entry): Option<Entry> {
    if e.rcount < 90 then None else Some(e)
  }

  function DropsFromTop(e: Entry): Option<Entry> {
    if e.rcount < 90 then Some(e.(rcount := 50)) else None
  }

  function RisesToTop(e: Entry): Option<Entry> {
    if e.rcount > 90 then Some(e) else None
  }

  function StaysMiddle(e: Entry): Option<Entry> {
    if e.rcount > 90 || e.rcount < 10 then None else Some(e)
  }

  /** Of the results f owes on `all`, `got` has arrived and the rest is still to come from `todo`. */
  ghost predicate Owed<B(!new)>(f: Entry -> Option<B>, got: seq<B>, todo: seq<Entry>, all: seq<Entry>) {
    multiset(got) + multiset(FilterMap(f, todo)) == multiset(FilterMap(f, all))
  }

  lemma OwedStart<B(!new)>(f: Entry -> Option<B>, all: seq<Entry>)
    ensures Owed(f, [], all, all)
  {}

  lemma OwedDone<B(!new)>(f: Entry -> Option<B>, got: seq<B>, all: seq<Entry>)
    requires Owed(f, got, [], all)
    ensures multiset(got) == multiset(FilterMap(f, all))
  {}

  lemma HeadThenRest<B>(f: Entry -> Option<B>, s: seq<Entry>, i: nat)
    requires i < |s|
    ensures FilterMap(f, s[i..]) == One(f(s[i])) + FilterMap(f, s[i + 1..])
  {
    assert s[i..][1..] == s[i + 1..];
  }

  /** Handling element i delivers its result; the order of what remains is free. */
  lemma OwedStep<B(!new)>(f: Entry -> Option<B>, got: seq<B>, s: seq<Entry>, i: nat, todo: seq<Entry>, all: seq<Entry>)
    requires i < |s| && Owed(f, got, s[i..], all)
    requires multiset(todo) == multiset(s[i + 1..])
    ensures Owed(f, got + One(f(s[i])), todo, all)
  {
    FilterMapPermutation(f, todo, s[i + 1..]);
    HeadThenRest(f, s, i);
    hide FilterMap, One;
    var mine, rest := One(f(s[i])), FilterMap(f, s[i + 1..]);
    assert multiset(mine + rest) == multiset(mine) + multiset(rest);
    assert multiset(got + mine) == multiset(got) + multiset(mine);
  }

  /** Element i is removed: into the results `got` if f gives one, or just away. */
  lemma OwedRemove<B(!new)>(f: Entry -> Option<B>, got: seq<B>, s: seq<Entry>, i: nat, all: seq<Entry>)
    requires i < |s| && Owed(f, got, s[i..], all)
    ensures f(s[i]).Some? ==> Owed(f, got + [f(s[i]).value], SwapRemove(s, i)[i..], all)
    ensures f(s[i]).None? ==> Owed(f, got, SwapRemove(s, i)[i..], all)
  {
    SwapRemoveKeeps(s, i);
    OwedStep(f, got, s, i, SwapRemove(s, i)[i..], all);
    assert got + [] == got;
  }

  /** Element i stays where it is, as y, while f takes notice of it or not. */
  lemma OwedPass<B(!new)>(f: Entry -> Option<B>, got: seq<B>, s: seq<Entry>, i: nat, y: Entry, all: seq<Entry>)
    requires i < |s| && Owed(f, got, s[i..], all)
    ensures f(s[i]).Some? ==> Owed(f, got + [f(s[i]).value], s[i := y][i + 1..], all)
    ensures f(s[i]).None? ==> Owed(f, got, s[i := y][i + 1..], all)
  {
    assert s[i := y][i + 1..] == s[i + 1..];
    OwedStep(f, got, s, i, s[i + 1..], all);
    assert got + [] == got;
  }

  /** The slots before i are themselves the results: element i is evicted. */
  lemma OwedEvict(f: Entry -> Option<Entry>, s: seq<Entry>, i: nat, all: seq<Entry>)
    requires i < |s| && Owed(f, s[..i], s[i..], all) && f(s[i]).None?
    ensures Owed(f, SwapRemove(s, i)[..i], SwapRemove(s, i)[i..], all)
  {
    OwedRemove(f, s[..i], s, i, all);
    SwapRemoveKeeps(s, i);
  }

  /** The slots before i are themselves the results: element i stays, updated. */
  lemma OwedKeep(f: Entry -> Option<Entry>, s: seq<Entry>, i: nat, y: Entry, all: seq<Entry>)
    requires i < |s| && Owed(f, s[..i], s[i..], all) && f(s[i]) == Some(y)
    ensures Owed(f, s[i := y][..i + 1], s[i := y][i + 1..], all)
  {
    OwedPass(f, s[..i], s, i, y, all);
    assert s[i := y][..i + 1] == s[..i] + [y];
  }

  lemma SwapRemoveUpdated(s: seq<Entry>, i: nat, y: Entry)
    requires i < |s|
    ensures SwapRemove(s[i := y], i) == SwapRemove(s, i)
  {
    assert s[i := y][i := s[i := y][|s| - 1]][..|s| - 1] == s[i := s[|s| - 1]][..|s| - 1];
  }

  ghost predicate Permutes(a: seq<Entry>, b: seq<Entry>) {
    multiset(a) == multiset(b)
  }

  lemma InsertPermutes(r: seq<Entry>, s: seq<Entry>, i: nat, j: nat)
    requires i < |s| && j <= |r| && Permutes(r, s[..i])
    ensures Permutes(r[..j] + [s[i]] + r[j..], s[..i + 1])
  {
    MultisetAround(r[..j], s[i], r[j..]);
    assert r[..j] + r[j..] == r && s[..i + 1] == s[..i] + [s[i]];
  }

  lemma InsertSorted(r: seq<Entry>, e: Entry, j: nat)
    requires j <= |r| && Sorted(r)
    requires forall k :: j <= k < |r| ==> e.info.perf.LessThan(r[k].info.perf)
    requires j > 0 ==> !e.info.perf.LessThan(r[j - 1].info.perf)
    ensures Sorted(r[..j] + [e] + r[j..])
  {}

  lemma PermutesSelf(a: seq<Entry>, b: seq<Entry>)
    requires a == b
    ensures Permutes(a, b)
  {}

  /** sort.Slice: the same entries, best RTT first. */
  method SortByPerf(s: seq<Entry>) returns (r: seq<Entry>)
    ensures Permutes(r, s) && Sorted(r)
  {
    hide Permutes;
    r := [];
    PermutesSelf(r, s[..0]);
    for i := 0 to |s|
      invariant Permutes(r, s[..i]) && Sorted(r)
    {
      var j := |r|;
      while j > 0 && s[i].info.perf.LessThan(r[j - 1].info.perf)
        invariant 0 <= j <= |r|
        invariant forall k :: j <= k < |r| ==> s[i].info.perf.LessThan(r[k].info.perf)
      {
        j := j - 1;
      }
      InsertPermutes(r, s, i, j);
      InsertSorted(r, s[i], j);
      r := r[..j] + [s[i]] + r[j..];
    }
    assert s[..|s|] == s;
  }

  function Vanishes(e: Entry): Option<Entry> {
    None
  }

  /** A demoted entry is reset to 50, which neither bound of the middle level touches. */
  lemma DemotedStays(m0: seq<Entry>)
    ensures FilterMap(RisesToTop, FilterMap(DropsFromTop, m0)) == []
    ensures FilterMap(StaysMiddle, FilterMap(DropsFromTop, m0)) == FilterMap(DropsFromTop, m0)
  {
    FilterMapCompose(DropsFromTop, RisesToTop, Vanishes, m0);
    FilterMapNothing(Vanishes, m0);
    FilterMapCompose(DropsFromTop, StaysMiddle, DropsFromTop, m0);
  }

  lemma FromTop(s: seq<Entry>, o: Oracle)
    ensures FilterMap(Lands(0, 0, o), s) == FilterMap(StaysTop, FilterMap(Measured(o), s))
    ensures FilterMap(Lands(0, 1, o), s) == FilterMap(DropsFromTop, FilterMap(Measured(o), s))
    ensures FilterMap(Lands(0, 2, o), s) == []
  {
    FilterMapCompose(Measured(o), StaysTop, Lands(0, 0, o), s);
    FilterMapCompose(Measured(o), DropsFromTop, Lands(0, 1, o), s);
    FilterMapNothing(Lands(0, 2, o), s);
  }

  lemma FromMiddle(s: seq<Entry>, o: Oracle)
    ensures FilterMap(Lands(1, 0, o), s) == FilterMap(RisesToTop, FilterMap(Measured(o), s))
    ensures FilterMap(Lands(1, 1, o), s) == FilterMap(StaysMiddle, FilterMap(Measured(o), s))
    ensures FilterMap(Lands(1, 2, o), s) == []
  {
    FilterMapCompose(Measured(o), RisesToTop, Lands(1, 0, o), s);
    FilterMapCompose(Measured(o), StaysMiddle, Lands(1, 1, o), s);
    FilterMapNothing(Lands(1, 2, o), s);
  }

  lemma FromLast(s: seq<Entry>, o: Oracle, to: nat)
    ensures FilterMap(Lands(2, to, o), s) == []
  {
    FilterMapNothing(Lands(2, to, o), s);
  }

  /** What the passes deliver from the middle level, where demoted entries have joined. */
  lemma MiddleDelivers(f: Entry -> Option<Entry>, m0: seq<Entry>, measured0: seq<Entry>, m1: seq<Entry>,
                       measured1: seq<Entry>, moved: seq<Entry>, got: seq<Entry>)
    requires Permutes(measured0, m0) && Permutes(measured1, m1)
    requires Owed(DropsFromTop, moved, [], measured0)
    requires Owed(f, got, [], measured1 + moved)
    ensures multiset(got) == multiset(FilterMap(f, m1)) + multiset(FilterMap(f, FilterMap(DropsFromTop, m0)))
  {
    FilterMapConcat(f, measured1, moved);
    FilterMapPermutation(f, measured1, m1);
    FilterMapPermutation(DropsFromTop, measured0, m0);
    FilterMapPermutation(f, moved, FilterMap(DropsFromTop, m0));
  }

  /** The passes together send every entry to the top level that Fate sends there. */
  lemma TopDelivers(start: seq<seq<Entry>>, o: Oracle, measured0: seq<Entry>, measured1: seq<Entry>,
                    top: seq<Entry>, moved: seq<Entry>, risen: seq<Entry>)
    requires |start| == LEVELS
    requires Owed(Measured(o), measured0, [], start[0]) && Owed(Measured(o), measured1, [], start[1])
    requires Owed(StaysTop, top, [], measured0) && Owed(DropsFromTop, moved, [], measured0)
    requires Owed(RisesToTop, risen, [], measured1 + moved)
    ensures Permutes(top + risen, Landing(start, 0, o))
  {
    var m0, m1 := FilterMap(Measured(o), start[0]), FilterMap(Measured(o), start[1]);
    MiddleDelivers(RisesToTop, m0, measured0, m1, measured1, moved, risen);
    DemotedStays(m0);
    FilterMapPermutation(StaysTop, measured0, m0);
    FromTop(start[0], o);
    FromMiddle(start[1], o);
    FromLast(start[2], o, 0);
  }

  lemma MiddleLands(start: seq<seq<Entry>>, o: Oracle, measured0: seq<Entry>, measured1: seq<Entry>,
                    moved: seq<Entry>, middle: seq<Entry>)
    requires |start| == LEVELS
    requires Owed(Measured(o), measured0, [], start[0]) && Owed(Measured(o), measured1, [], start[1])
    requires Owed(DropsFromTop, moved, [], measured0)
    requires Owed(StaysMiddle, middle, [], measured1 + moved)
    ensures Permutes(middle, Landing(start, 1, o))
  {
    var m0, m1 := FilterMap(Measured(o), start[0]), FilterMap(Measured(o), start[1]);
    MiddleDelivers(StaysMiddle, m0, measured0, m1, measured1, moved, middle);
    DemotedStays(m0);
    FromTop(start[0], o);
    FromMiddle(start[1], o);
    FromLast(start[2], o, 1);
  }

  lemma NothingLandsLast(start: seq<seq<Entry>>, o: Oracle)
    requires |start| == LEVELS
    ensures Permutes([], Landing(start, 2, o))
  {
    FromTop(start[0], o);
    FromMiddle(start[1], o);
    FromLast(start[2], o, 2);
  }

  lemma PingsAddUp(levels: seq<seq<Entry>>, p0: seq<nat>, p1: seq<nat>, p2: seq<nat>)
    requires |levels| == LEVELS
    requires Owed(TagOf, p0, [], levels[0]) && Owed(TagOf, p1, [], levels[1]) && Owed(TagOf, p2, [], levels[2])
    ensures Owed(TagOf, p0 + p1 + p2, [], levels[0] + levels[1] + levels[2])
  {
    FilterMapConcat(TagOf, levels[0] + levels[1], levels[2]);
    FilterMapConcat(TagOf, levels[0], levels[1]);
  }

  lemma ThenUpdated(before: seq<seq<Entry>>, o: Oracle, settled: seq<seq<Entry>>, after: seq<seq<Entry>>)
    requires |before| == |settled| == |after| == LEVELS
    requires forall l :: 0 <= l < LEVELS ==> Permutes(settled[l], Landing(before, l, o))
    requires forall l :: 0 <= l < LEVELS ==> Permutes(after[l], settled[l]) && Sorted(after[l])
    ensures Updated(before, o, after)
  {}

  class PeerCache {
    var levels: seq<seq<Entry>>
    var nextTag: nat

    function View(): Cache
      reads this
    {
      Cache(levels, nextTag)
    }

    ghost predicate Valid()
      reads this
    {
      View().Shaped()
    }

    constructor ()
      ensures Valid() && View() == EMPTY
    {
      levels := [[], [], []];
      nextTag := 0;
    }

    method AddPeer(info: PeerInfo)
      requires Valid()
      modifies this
      ensures Valid() && View() == Added(old(View()), info)
    {
      levels := levels[LEVELS - 2 := levels[LEVELS - 2] + [Entry(nextTag, 50, info)]];
      nextTag := nextTag + 1;
    }

    method RemovePeer(id: string)
      requires Valid()
      modifies this
      ensures Valid() && View() == Removed(old(View()), id)
    {
      for l := 0 to LEVELS - 1
        invariant View() == old(View())
        invariant forall k :: 0 <= k < l ==> SlotOf(levels[k], id).None?
      {
        var count := 0;
        for i := 0 to |levels[l]|
          invariant View() == old(View())
          invariant count == i <= RMAX
          invariant SlotOf(levels[l], id) == SlotOf(levels[l], id, i)
        {
          if count < RMAX {
            if id == levels[l][i].info.id {
              levels := levels[l := SwapRemove(levels[l], i)];
              return;
            }
            count := count + 1;
          } else {
            break;
          }
        }
      }
    }

    method GetPeer(hash: string) returns (id: Option<string>)
      requires Valid()
      ensures id == var e := Selected(View(), hash); if e.Some? then Some(e.value.info.id) else None
    {
      hide FirstOffering;
      for l := 0 to LEVELS - 1
        invariant forall k :: 0 <= k < l ==> FirstOffering(levels[k], hash).None?
      {
        assert levels[l][0..] == levels[l];
        assert levels[l][|levels[l]|..] == [];
        NoneOffering(hash);
        for i := 0 to |levels[l]|
          invariant FirstOffering(levels[l], hash) == FirstOffering(levels[l][i..], hash)
        {
          OfferingFrom(levels[l], hash, i);
          if levels[l][i].info.servHash == hash {
            return Some(levels[l][i].info.id);
          }
        }
      }
      return None;
    }

    /** First pass over level l: ping every entry, evict it or adjust its count. */
    method MeasureLevel(l: nat, o: Oracle) returns (ghost pings: seq<nat>)
      requires Valid() && l < LEVELS
      modifies this`levels
      ensures Valid() && forall k :: 0 <= k < LEVELS && k != l ==> levels[k] == old(levels[k])
      ensures Owed(Measured(o), levels[l], [], old(levels[l]))
      ensures Owed(TagOf, pings, [], old(levels[l]))
    {
      hide Owed;
      pings := [];
      var i := 0;
      ghost var all := levels[l];
      OwedStart(Measured(o), all);
      OwedStart(TagOf, all);
      while i < |levels[l]|
        invariant Valid() && 0 <= i <= |levels[l]|
        invariant forall k :: 0 <= k < LEVELS && k != l ==> levels[k] == old(levels[k])
        invariant Owed(Measured(o), levels[l][..i], levels[l][i..], all)
        invariant Owed(TagOf, pings, levels[l][i..], all)
        decreases |levels[l]| - i
      {
        ghost var s := levels[l];
        var e := levels[l][i];
        var p := o(e.tag);
        var perf := PerfInd(p.rtt);
        if p.rtt == 0 || p.needs.hard.LessThan(perf) {
          OwedEvict(Measured(o), s, i, all);
          OwedRemove(TagOf, pings, s, i, all);
          levels := levels[l := SwapRemove(levels[l], i)];
          i := i - 1;
        } else {
          var count;
          if p.needs.soft.LessThan(perf) {
            count := if e.rcount < 10 then 0 else e.rcount - 10;
          } else {
            count := if e.rcount < 100 then e.rcount + 1 else e.rcount;
          }
          var y := e.(info := e.info.(perf := perf), rcount := count);
          OwedKeep(Measured(o), s, i, y, all);
          OwedPass(TagOf, pings, s, i, y, all);
          levels := levels[l := levels[l][i := y]];
        }
        pings := pings + [e.tag];
        i := i + 1;
      }
      assert levels[l][..i] == levels[l] && levels[l][i..] == [];
    }

    /** Second pass, top level: unreliable peers move down. */
    method DemoteTop() returns (ghost moved: seq<Entry>)
      requires Valid()
      modifies this`levels
      ensures Valid() && levels[2] == old(levels[2])
      ensures Owed(StaysTop, levels[0], [], old(levels[0]))
      ensures levels[1] == old(levels[1]) + moved
      ensures Owed(DropsFromTop, moved, [], old(levels[0]))
    {
      hide Owed;
      moved := [];
      var i := 0;
      ghost var all := levels[0];
      OwedStart(StaysTop, all);
      OwedStart(DropsFromTop, all);
      while i < |levels[0]|
        invariant Valid() && 0 <= i <= |levels[0]|
        invariant levels[2] == old(levels[2]) && levels[1] == old(levels[1]) + moved
        invariant Owed(StaysTop, levels[0][..i], levels[0][i..], all)
        invariant Owed(DropsFromTop, moved, levels[0][i..], all)
        decreases |levels[0]| - i
      {
        ghost var s := levels[0];
        if levels[0][i].rcount < 90 {
          OwedEvict(StaysTop, s, i, all);
          OwedRemove(DropsFromTop, moved, s, i, all);
          SwapRemoveUpdated(s, i, s[i].(rcount := 50));
          levels := levels[0 := levels[0][i := levels[0][i].(rcount := 50)]];
          moved := moved + [levels[0][i]];
          levels := levels[1 := levels[1] + [levels[0][i]]];
          levels := levels[0 := SwapRemove(levels[0], i)];
          i := i - 1;
        } else {
          OwedKeep(StaysTop, s, i, s[i], all);
          OwedPass(DropsFromTop, moved, s, i, s[i], all);
          assert s[i := s[i]] == s;
        }
        i := i + 1;
      }
      assert levels[0][..i] == levels[0] && levels[0][i..] == [];
    }

    /** Second pass, middle level: reliable peers move up, unreliable ones to the last level. */
    method ShiftMiddle() returns (ghost risen: seq<Entry>)
      requires Valid()
      modifies this`levels
      ensures Valid()
      ensures Owed(StaysMiddle, levels[1], [], old(levels[1]))
      ensures levels[0] == old(levels[0]) + risen
      ensures Owed(RisesToTop, risen, [], old(levels[1]))
    {
      hide Owed;
      risen := [];
      var i := 0;
      ghost var all := levels[1];
      OwedStart(StaysMiddle, all);
      OwedStart(RisesToTop, all);
      while i < |levels[1]|
        invariant Valid() && 0 <= i <= |levels[1]|
        invariant levels[0] == old(levels[0]) + risen
        invariant Owed(StaysMiddle, levels[1][..i], levels[1][i..], all)
        invariant Owed(RisesToTop, risen, levels[1][i..], all)
        decreases |levels[1]| - i
      {
        ghost var s := levels[1];
        if levels[1][i].rcount > 90 {
          OwedEvict(StaysMiddle, s, i, all);
          OwedRemove(RisesToTop, risen, s, i, all);
          risen := risen + [levels[1][i]];
          levels := levels[0 := levels[0] + [levels[1][i]]];
          levels := levels[1 := SwapRemove(levels[1], i)];
          i := i - 1;
        } else if levels[1][i].rcount < 10 {
          OwedEvict(StaysMiddle, s, i, all);
          OwedRemove(RisesToTop, risen, s, i, all);
          SwapRemoveUpdated(s, i, s[i].(rcount := 50));
          levels := levels[1 := levels[1][i := levels[1][i].(rcount := 50)]];
          levels := levels[2 := levels[2] + [levels[1][i]]];
          levels := levels[1 := SwapRemove(levels[1], i)];
          i := i - 1;
        } else {
          OwedKeep(StaysMiddle, s, i, s[i], all);
          OwedPass(RisesToTop, risen, s, i, s[i], all);
          assert s[i := s[i]] == s;
        }
        i := i + 1;
      }
      assert levels[1][..i] == levels[1] && levels[1][i..] == [];
    }

    /** Third pass: sort every level. */
    method SortLevels()
      requires Valid()
      modifies this`levels
      ensures Valid()
      ensures forall k :: 0 <= k < LEVELS ==> Permutes(levels[k], old(levels[k])) && Sorted(levels[k])
    {
      hide Permutes, Sorted;
      for l := 0 to LEVELS
        invariant Valid()
        invariant forall k :: 0 <= k < l ==> Permutes(levels[k], old(levels[k])) && Sorted(levels[k])
        invariant forall k :: l <= k < LEVELS ==> levels[k] == old(levels[k])
      {
        var sorted := SortByPerf(levels[l]);
        levels := levels[l := sorted];
      }
    }

    /** One cache update: every entry meets the fate it would meet alone, and is pinged once. */
    method UpdateCache(o: Oracle) returns (ghost pings: seq<nat>)
      requires Valid()
      modifies this`levels
      ensures Valid() && Updated(old(levels), o, levels)
      ensures multiset(pings) == multiset(FilterMap(TagOf, old(levels[0] + levels[1] + levels[2])))
    {
      hide Owed, Permutes, Updated, Landing, Sorted;
      ghost var start := levels;
      var p0 := MeasureLevel(0, o);
      var p1 := MeasureLevel(1, o);
      var p2 := MeasureLevel(2, o);
      pings := p0 + p1 + p2;
      PingsAddUp(start, p0, p1, p2);
      OwedDone(TagOf, pings, start[0] + start[1] + start[2]);
      ghost var measured := levels;
      var moved := DemoteTop();
      ghost var top := levels[0];
      var risen := ShiftMiddle();
      TopDelivers(start, o, measured[0], measured[1], top, moved, risen);
      MiddleLands(start, o, measured[0], measured[1], moved, levels[1]);
      NothingLandsLast(start, o);
      levels := levels[LEVELS - 1 := []];
      ghost var settled := levels;
      SortLevels();
      ThenUpdated(start, o, settled, levels);
    }
  }
}
