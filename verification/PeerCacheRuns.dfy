/** What holds of the peer cache over whole runs of AddPeer, RemovePeer, GetPeer and updateCache. */
module PeerCacheRuns {
  import opened Common
  import opened PeerCacheSpec

  datatype Op = Add(info: PeerInfo) | Remove(id: string) | Get(hash: string) | Update(oracle: Oracle)

  /** Each operation holds the lock throughout, so it is one step. */
  ghost predicate Step(c: Cache, op: Op, c': Cache)
    requires c.Shaped()
  {
    match op
    case Add(info) => c' == Added(c, info)
    case Remove(id) => c' == Removed(c, id)
    case Get(_) => c' == c
    case Update(o) => Updated(c.levels, o, c'.levels) && c'.nextTag == c.nextTag
  }

  ghost predicate Run(h: seq<Cache>, ops: seq<Op>) {
    |h| == |ops| + 1 && h[0] == EMPTY &&
    (forall k :: 0 <= k < |h| ==> h[k].Shaped()) &&
    forall k :: 0 <= k < |ops| ==> Step(h[k], ops[k], h[k + 1])
  }

  ghost predicate InRange(c: Cache)
    requires c.Shaped()
  {
    (forall e :: e in c.levels[0] ==> 90 <= e.rcount <= 100) &&
    (forall e :: e in c.levels[1] ==> 10 <= e.rcount <= 90) &&
    c.levels[2] == []
  }

  ghost predicate TagsDistinct(c: Cache)
    requires c.Shaped()
  {
    (forall l, e :: 0 <= l < LEVELS && e in c.levels[l] ==> e.tag < c.nextTag) &&
    forall l, m, x, y :: 0 <= l < LEVELS && 0 <= m < LEVELS && x in c.levels[l] && y in c.levels[m] && x.tag == y.tag
      ==> l == m && x == y
  }

  /** No level holds an entry twice. */
  ghost predicate HeldOnce(c: Cache)
    requires c.Shaped()
  {
    forall l, e :: 0 <= l < LEVELS && e in c.levels[l] ==> multiset(c.levels[l])[e] == 1
  }

  ghost predicate Inv(c: Cache) {
    c.Shaped() && InRange(c) && TagsDistinct(c) && HeldOnce(c)
  }

  // --- One update, entry by entry ---

  lemma LandsSomewhere(before: seq<seq<Entry>>, o: Oracle, after: seq<seq<Entry>>, to: nat, y: Entry)
      returns (from: nat)
    requires Updated(before, o, after) && to < LEVELS && y in after[to]
    ensures from < LEVELS && y in FilterMap(Lands(from, to, o), before[from])
  {
    assert y in multiset(Landing(before, to, o));
    hide FilterMap, Lands, Sorted;
    from := if y in FilterMap(Lands(0, to, o), before[0]) then 0
            else if y in FilterMap(Lands(1, to, o), before[1]) then 1 else 2;
  }

  lemma UpdatedShape(before: seq<seq<Entry>>, o: Oracle, after: seq<seq<Entry>>)
    requires Updated(before, o, after)
    ensures |before| == |after| == LEVELS
  {}

  /** Every entry found after an update is the image of one that was there before. */
  lemma Origin(before: seq<seq<Entry>>, o: Oracle, after: seq<seq<Entry>>, to: nat, y: Entry)
      returns (from: nat, x: Entry)
    requires Updated(before, o, after) && to < LEVELS && y in after[to]
    ensures from < LEVELS && x in before[from] && Fate(from, o, x) == Some((to, y))
  {
    UpdatedShape(before, o, after);
    from := LandsSomewhere(before, o, after, to, y);
    hide Updated, FilterMap, Fate;
    FilterMapMember(Lands(from, to, o), before[from], y);
    x :| x in before[from] && Lands(from, to, o)(x) == Some(y);
  }

  lemma Arrives(before: seq<seq<Entry>>, o: Oracle, after: seq<seq<Entry>>, from: nat, x: Entry)
    requires Updated(before, o, after) && from < LEVELS && x in before[from]
    ensures var f := Fate(from, o, x);
            f.Some? ==> f.value.0 < LEVELS && f.value.1 in after[f.value.0] && f.value.1.tag == x.tag
  {
    var f := Fate(from, o, x);
    if f.Some? {
      var to, y := f.value.0, f.value.1;
      assert Lands(from, to, o)(x) == Some(y);
      FilterMapMember(Lands(from, to, o), before[from], y);
      assert y in Landing(before, to, o);
      assert y in multiset(after[to]);
    }
  }

  /** The exact ladder: no count is ever clamped to zero, and nothing moves twice in one update. */
  lemma LadderStep(c: Cache, o: Oracle, l: nat, e: Entry)
    requires c.Shaped() && InRange(c) && l < LEVELS && e in c.levels[l]
    ensures o(e.tag).Judge() == Miss ==> e.rcount >= 10
    ensures Fate(l, o, e) == (
      var seen := e.(info := e.info.(perf := PerfInd(o(e.tag).rtt)));
      match o(e.tag).Judge()
      case Fail => None
      case Good =>
        if l == 1 && e.rcount < 90 then Some((1, seen.(rcount := e.rcount + 1)))
        else if e.rcount < 100 then Some((0, seen.(rcount := e.rcount + 1)))
        else Some((0, seen))
      case Miss =>
        if l == 0 && e.rcount == 100 then Some((0, seen.(rcount := 90)))
        else if l == 0 then Some((1, seen.(rcount := 50)))
        else if e.rcount >= 20 then Some((1, seen.(rcount := e.rcount - 10)))
        else None)
  {
  }

  /**
   * Requirements decide alone, whatever the ping says, exactly when the hard one is zero. A registry
   * lookup that fails and leaves the zero value behind therefore evicts the entry.
   */
  lemma ZeroRequirementEvicts(needs: Requirements, e: Entry)
    ensures (forall o: Oracle :: o(e.tag).needs == needs ==> Measured(o)(e).None?) <==> needs.hard.rtt == 0
  {
    if needs.hard.rtt > 0 {
      var o: Oracle := (_: nat) => Probe(1, needs);
      assert o(e.tag).needs == needs && Measured(o)(e).Some?;
    }
  }

  lemma SameLanding(a: seq<seq<Entry>>, b: seq<seq<Entry>>, o: Oracle, l: nat)
    requires |a| == |b| == LEVELS && forall l :: 0 <= l < LEVELS ==> multiset(a[l]) == multiset(b[l])
    ensures multiset(Landing(a, l, o)) == multiset(Landing(b, l, o))
  {
    FilterMapPermutation(Lands(0, l, o), a[0], b[0]);
    FilterMapPermutation(Lands(1, l, o), a[1], b[1]);
    FilterMapPermutation(Lands(2, l, o), a[2], b[2]);
  }

  /** Starting from the same entries in another order gives the same entries in every level. */
  lemma UpdateIgnoresOrder(a: seq<seq<Entry>>, b: seq<seq<Entry>>, o: Oracle, a': seq<seq<Entry>>, b': seq<seq<Entry>>)
    requires |a| == |b| == LEVELS && forall l :: 0 <= l < LEVELS ==> multiset(a[l]) == multiset(b[l])
    requires Updated(a, o, a') && Updated(b, o, b')
    ensures forall l :: 0 <= l < LEVELS ==> multiset(a'[l]) == multiset(b'[l])
  {
    forall l | 0 <= l < LEVELS
      ensures multiset(a'[l]) == multiset(b'[l])
    {
      SameLanding(a, b, o, l);
    }
  }

  // --- The invariant ---

  lemma EmptyInv()
    ensures Inv(EMPTY)
  {}

  lemma SwapRemoveSubset<T>(s: seq<T>, i: nat)
    requires i < |s|
    ensures forall x :: x in SwapRemove(s, i) ==> x in s
  {}

  lemma FateKeepsTag(from: nat, o: Oracle, x: Entry)
    ensures var f := Fate(from, o, x); f.Some? ==> f.value.1.tag == x.tag
  {}

  lemma UpdatedEntryInRange(c: Cache, o: Oracle, c': Cache, l: nat, y: Entry)
    requires Inv(c) && Step(c, Update(o), c') && c'.Shaped() && l < LEVELS && y in c'.levels[l]
    ensures y.tag < c'.nextTag && l != 2
    ensures l == 0 ==> 90 <= y.rcount <= 100
    ensures l == 1 ==> 10 <= y.rcount <= 90
  {
    hide Updated, Fate;
    var from, x := Origin(c.levels, o, c'.levels, l, y);
    LadderStep(c, o, from, x);
    FateKeepsTag(from, o, x);
    assert x.tag < c.nextTag;
    hide TagsDistinct;
  }

  lemma SameTag(c: Cache, l: nat, x: Entry, m: nat, y: Entry)
    requires Inv(c) && l < LEVELS && m < LEVELS && x in c.levels[l] && y in c.levels[m] && x.tag == y.tag
    ensures l == m && x == y
  {}

  lemma UpdatedTagsDistinct(c: Cache, o: Oracle, c': Cache, l: nat, y: Entry, m: nat, z: Entry)
    requires Inv(c) && Updated(c.levels, o, c'.levels) && c'.Shaped() && l < LEVELS && m < LEVELS
    requires y in c'.levels[l] && z in c'.levels[m] && y.tag == z.tag
    ensures l == m && y == z
  {
    hide Updated, Fate, InRange, TagsDistinct;
    var from, x := Origin(c.levels, o, c'.levels, l, y);
    var from', x' := Origin(c.levels, o, c'.levels, m, z);
    FateKeepsTag(from, o, x);
    FateKeepsTag(from', o, x');
    SameTag(c, from, x, from', x');
  }

  lemma UpdateKeepsRange(c: Cache, o: Oracle, c': Cache)
    requires Inv(c) && Step(c, Update(o), c') && c'.Shaped()
    ensures InRange(c')
  {
    hide Inv, Step;
    forall l, y | 0 <= l < LEVELS && y in c'.levels[l]
      ensures l != 2
      ensures l == 0 ==> 90 <= y.rcount <= 100
      ensures l == 1 ==> 10 <= y.rcount <= 90
    {
      UpdatedEntryInRange(c, o, c', l, y);
    }
    if c'.levels[2] != [] {
      UpdatedEntryInRange(c, o, c', 2, c'.levels[2][0]);
    }
  }

  lemma UpdateKeepsTags(c: Cache, o: Oracle, c': Cache)
    requires Inv(c) && Updated(c.levels, o, c'.levels) && c'.nextTag == c.nextTag && c'.Shaped()
    ensures TagsDistinct(c')
  {
    hide Inv, Updated;
    forall l, y | 0 <= l < LEVELS && y in c'.levels[l]
      ensures y.tag < c'.nextTag
    {
      UpdatedEntryInRange(c, o, c', l, y);
    }
    forall l, m, y, z | 0 <= l < LEVELS && 0 <= m < LEVELS && y in c'.levels[l] && z in c'.levels[m] && y.tag == z.tag
      ensures l == m && y == z
    {
      UpdatedTagsDistinct(c, o, c', l, y, m, z);
    }
  }

  /** From another level than x's nothing lands on y, the image of x. */
  lemma LandsFromOneLevel(c: Cache, o: Oracle, from: nat, x: Entry, to: nat, y: Entry, other: nat)
    requires Inv(c) && from < LEVELS && x in c.levels[from] && x.tag == y.tag && other < LEVELS && other != from
    ensures multiset(FilterMap(Lands(other, to, o), c.levels[other]))[y] == 0
  {
    if y in FilterMap(Lands(other, to, o), c.levels[other]) {
      FilterMapMember(Lands(other, to, o), c.levels[other], y);
      var z :| z in c.levels[other] && Lands(other, to, o)(z) == Some(y);
      FateKeepsTag(other, o, z);
      SameTag(c, from, x, other, z);
    }
  }

  lemma LandsOnce(c: Cache, o: Oracle, from: nat, x: Entry, to: nat, y: Entry)
    requires Inv(c) && from < LEVELS && x in c.levels[from] && Fate(from, o, x) == Some((to, y))
    ensures multiset(FilterMap(Lands(from, to, o), c.levels[from]))[y] == 1
  {
    forall z | z in c.levels[from] && Lands(from, to, o)(z) == Some(y)
      ensures z == x
    {
      FateKeepsTag(from, o, z);
      FateKeepsTag(from, o, x);
      SameTag(c, from, x, from, z);
    }
    FilterMapCount(Lands(from, to, o), c.levels[from], x, y);
  }

  lemma UpdateKeepsOnce(c: Cache, o: Oracle, c': Cache)
    requires Inv(c) && Updated(c.levels, o, c'.levels) && c'.Shaped()
    ensures HeldOnce(c')
  {
    forall to, y | 0 <= to < LEVELS && y in c'.levels[to]
      ensures multiset(c'.levels[to])[y] == 1
    {
      var from, x := Origin(c.levels, o, c'.levels, to, y);
      FateKeepsTag(from, o, x);
      assert multiset(c'.levels[to]) == multiset(Landing(c.levels, to, o));
      hide Updated, Fate, FilterMap, Inv, Lands;
      LandsOnce(c, o, from, x, to, y);
      if from != 0 { LandsFromOneLevel(c, o, from, x, to, y, 0); }
      if from != 1 { LandsFromOneLevel(c, o, from, x, to, y, 1); }
      if from != 2 { LandsFromOneLevel(c, o, from, x, to, y, 2); }
    }
  }

  lemma UpdateKeepsInv(c: Cache, o: Oracle, c': Cache)
    requires Inv(c) && Step(c, Update(o), c') && c'.Shaped()
    ensures Inv(c')
  {
    hide Updated, InRange, TagsDistinct, HeldOnce;
    UpdateKeepsRange(c, o, c');
    UpdateKeepsTags(c, o, c');
    UpdateKeepsOnce(c, o, c');
  }

  lemma RemovedSubset(c: Cache, id: string, l: nat, e: Entry)
    requires c.Shaped() && l < LEVELS && e in Removed(c, id).levels[l]
    ensures e in c.levels[l]
  {
    var s0, s1 := SlotOf(c.levels[0], id), SlotOf(c.levels[1], id);
    if s0.Some? {
      SwapRemoveSubset(c.levels[0], s0.value);
    } else if s1.Some? {
      SwapRemoveSubset(c.levels[1], s1.value);
    }
  }

  lemma RemovedCounts(c: Cache, id: string, l: nat)
    requires c.Shaped() && l < LEVELS
    ensures multiset(Removed(c, id).levels[l]) <= multiset(c.levels[l])
  {
    var s0, s1 := SlotOf(c.levels[0], id), SlotOf(c.levels[1], id);
    if s0.Some? {
      SwapRemoveKeeps(c.levels[0], s0.value);
    } else if s1.Some? {
      SwapRemoveKeeps(c.levels[1], s1.value);
    }
  }

  lemma RemoveKeepsOnce(c: Cache, id: string)
    requires c.Shaped() && HeldOnce(c)
    ensures HeldOnce(Removed(c, id))
  {
    hide Removed;
    var c' := Removed(c, id);
    forall l, e | 0 <= l < LEVELS && e in c'.levels[l]
      ensures multiset(c'.levels[l])[e] == 1
    {
      RemovedCounts(c, id, l);
      RemovedSubset(c, id, l, e);
    }
  }

  lemma RemoveKeepsInv(c: Cache, id: string)
    requires Inv(c)
    ensures Inv(Removed(c, id))
  {
    RemoveKeepsOnce(c, id);
    hide HeldOnce;
    forall l, e | 0 <= l < LEVELS && e in Removed(c, id).levels[l]
      ensures e in c.levels[l]
    {
      RemovedSubset(c, id, l, e);
    }
  }

  lemma AddKeepsRange(c: Cache, info: PeerInfo)
    requires Inv(c)
    ensures Added(c, info).Shaped() && InRange(Added(c, info)) && TagsDistinct(Added(c, info))
  {
    hide HeldOnce;
  }

  lemma AddKeepsOnce(c: Cache, info: PeerInfo)
    requires Inv(c)
    ensures Added(c, info).Shaped() && HeldOnce(Added(c, info))
  {
    hide InRange;
    var c', new' := Added(c, info), Entry(c.nextTag, 50, info);
    assert new' !in c.levels[1];
    assert multiset(c'.levels[1]) == multiset(c.levels[1]) + multiset{new'};
  }

  lemma AddKeepsInv(c: Cache, info: PeerInfo)
    requires Inv(c)
    ensures Inv(Added(c, info))
  {
    hide InRange, TagsDistinct, HeldOnce;
    AddKeepsRange(c, info);
    AddKeepsOnce(c, info);
  }

  lemma StepKeepsInv(c: Cache, op: Op, c': Cache)
    requires Inv(c) && Step(c, op, c')
    ensures Inv(c')
  {
    hide Updated;
    assert c'.Shaped() by { if op.Update? { UpdatedShape(c.levels, op.oracle, c'.levels); } }
    match op
    case Add(info) => AddKeepsInv(c, info);
    case Remove(id) => RemoveKeepsInv(c, id);
    case Get(_) =>
    case Update(o) => UpdateKeepsInv(c, o, c');
  }

  /** In every reachable state the counts are in range, the last level is empty and tags are unique. */
  lemma {:induction false} ReachableInv(h: seq<Cache>, ops: seq<Op>, k: nat)
    requires Run(h, ops) && k < |h|
    ensures Inv(h[k])
  {
    hide Inv, Step;
    EmptyInv();
    if k > 0 {
      ReachableInv(h, ops, k - 1);
      StepKeepsInv(h[k - 1], ops[k - 1], h[k]);
    }
  }

  // --- Following one entry through a run ---

  ghost predicate InLevel(c: Cache, l: nat, t: nat)
    requires c.Shaped() && l < LEVELS
  {
    exists e :: e in c.levels[l] && e.tag == t
  }

  ghost function Find(c: Cache, l: nat, t: nat): (e: Entry)
    requires c.Shaped() && l < LEVELS && InLevel(c, l, t)
    ensures e in c.levels[l] && e.tag == t
  {
    var e :| e in c.levels[l] && e.tag == t;
    e
  }

  ghost predicate Gone(c: Cache, t: nat)
    requires c.Shaped()
  {
    forall l :: 0 <= l < LEVELS ==> !InLevel(c, l, t)
  }

  /** An update sends the entry exactly where Fate says, and nowhere else. */
  lemma UpdateTracks(c: Cache, o: Oracle, c': Cache, l: nat, t: nat, to: nat)
    requires Inv(c) && Inv(c') && Updated(c.levels, o, c'.levels) && l < LEVELS && to < LEVELS && InLevel(c, l, t)
    ensures var f := Fate(l, o, Find(c, l, t));
            && (InLevel(c', to, t) <==> f.Some? && f.value.0 == to)
            && (InLevel(c', to, t) ==> Find(c', to, t) == f.value.1)
  {
    hide Updated, InRange, TagsDistinct, Fate;
    var e := Find(c, l, t);
    var f := Fate(l, o, e);
    Arrives(c.levels, o, c'.levels, l, e);
    if f.Some? && f.value.0 == to {
      assert InLevel(c', to, t);
      SameTag(c', to, f.value.1, to, Find(c', to, t));
    }
    if InLevel(c', to, t) {
      var y := Find(c', to, t);
      var from, x := Origin(c.levels, o, c'.levels, to, y);
      FateKeepsTag(from, o, x);
      SameTag(c, from, x, l, e);
    }
  }

  lemma AddedSuperset(c: Cache, op: Op, c': Cache, l: nat, e: Entry)
    requires c.Shaped() && Step(c, op, c') && !op.Update? && !op.Remove? && l < LEVELS && e in c.levels[l]
    ensures c'.Shaped() && e in c'.levels[l]
  {}

  /** Nothing but an update changes an entry or moves it to another level. */
  lemma OtherStepTracks(c: Cache, op: Op, c': Cache, l: nat, t: nat, to: nat)
    requires Inv(c) && Inv(c') && Step(c, op, c') && !op.Update? && l < LEVELS && to < LEVELS && InLevel(c, l, t)
    ensures InLevel(c', to, t) ==> to == l && Find(c', to, t) == Find(c, l, t)
    ensures !op.Remove? ==> InLevel(c', l, t)
  {
    var e := Find(c, l, t);
    if op.Remove? {
      if InLevel(c', to, t) {
        var y := Find(c', to, t);
        RemovedSubset(c, op.id, to, y);
        SameTag(c, to, y, l, e);
      }
    } else {
      AddedSuperset(c, op, c', l, e);
      if InLevel(c', to, t) {
        SameTag(c', l, e, to, Find(c', to, t));
      }
    }
  }

  function Updates(ops: seq<Op>): nat {
    if ops == [] then 0
    else Updates(ops[..|ops| - 1]) + if ops[|ops| - 1].Update? then 1 else 0
  }

  /** How many of the updates judged entry t this way. */
  function Judged(ops: seq<Op>, t: nat, v: Verdict): nat {
    if ops == [] then 0
    else
      var last := ops[|ops| - 1];
      Judged(ops[..|ops| - 1], t, v) + if last.Update? && last.oracle(t).Judge() == v then 1 else 0
  }

  lemma JudgedNext(ops: seq<Op>, i: nat, j: nat, t: nat)
    requires i <= j < |ops|
    ensures Updates(ops[i..j + 1]) == Updates(ops[i..j]) + if ops[j].Update? then 1 else 0
    ensures forall v :: Judged(ops[i..j + 1], t, v)
                     == Judged(ops[i..j], t, v) + if ops[j].Update? && ops[j].oracle(t).Judge() == v then 1 else 0
  {
    assert ops[i..j + 1][..j - i] == ops[i..j];
  }

  ghost predicate StaysIn(h: seq<Cache>, l: nat, t: nat, i: nat, j: nat) {
    l < LEVELS && i <= j < |h| && (forall k :: i <= k <= j ==> h[k].Shaped()) &&
    forall k :: i <= k <= j ==> InLevel(h[k], l, t)
  }

  /** In the top level a miss costs ten and a good update gains at most one. */
  lemma TopPotentialStep(c: Cache, op: Op, c': Cache, t: nat)
    requires Inv(c) && Inv(c') && Step(c, op, c') && InLevel(c, 0, t) && InLevel(c', 0, t)
    ensures var (n, n') := (Find(c, 0, t).rcount, Find(c', 0, t).rcount);
            if !op.Update? then n' == n
            else if op.oracle(t).Judge() == Miss then n' == n - 10
            else n' <= n + 1
  {
    hide Updated, TagsDistinct;
    if op.Update? {
      UpdateTracks(c, op.oracle, c', 0, t, 0);
      LadderStep(c, op.oracle, 0, Find(c, 0, t));
    } else {
      OtherStepTracks(c, op, c', 0, t, 0);
    }
  }

  lemma {:induction false} TopPotential(h: seq<Cache>, ops: seq<Op>, t: nat, i: nat, j: nat)
    requires Run(h, ops) && StaysIn(h, 0, t, i, j)
    ensures 11 * Judged(ops[i..j], t, Miss) + Find(h[j], 0, t).rcount <= Updates(ops[i..j]) + Find(h[i], 0, t).rcount
  {
    hide Inv, Step, InLevel;
    if i < j {
      TopPotential(h, ops, t, i, j - 1);
      ReachableInv(h, ops, j - 1);
      ReachableInv(h, ops, j);
      TopPotentialStep(h[j - 1], ops[j - 1], h[j], t);
      JudgedNext(ops, i, j - 1, t);
    }
  }

  /** An entry that stays in the top level throughout k updates misses rarely: 11 * m <= k + 10. */
  lemma TopLevelIsReliable(h: seq<Cache>, ops: seq<Op>, t: nat, i: nat, j: nat)
    requires Run(h, ops) && StaysIn(h, 0, t, i, j)
    ensures 11 * Judged(ops[i..j], t, Miss) <= Updates(ops[i..j]) + 10
  {
    TopPotential(h, ops, t, i, j);
    ReachableInv(h, ops, i);
    ReachableInv(h, ops, j);
  }

  /** What has been gained in the middle level: one per good update, ten lost per miss. */
  function Net(ops: seq<Op>, t: nat): int {
    Judged(ops, t, Good) - 10 * Judged(ops, t, Miss)
  }

  lemma NetOne(op: Op, t: nat)
    ensures Net([op], t) ==
              if !op.Update? then 0
              else match op.oracle(t).Judge() case Good => 1 case Miss => -10 case Fail => 0
  {
    var ops := [op];
    assert ops[..|ops| - 1] == [];
    forall v ensures Judged(ops, t, v) == if op.Update? && op.oracle(t).Judge() == v then 1 else 0 {}
  }

  lemma MiddleStep(c: Cache, op: Op, c': Cache, t: nat)
    requires Inv(c) && Inv(c') && Step(c, op, c') && InLevel(c, 1, t)
    ensures var n := Find(c, 1, t).rcount + Net([op], t);
            if op.Update? then
              if op.oracle(t).Judge() == Fail then Gone(c', t)
              else
                && (InLevel(c', 0, t) <==> n == 91) && (InLevel(c', 0, t) ==> Find(c', 0, t).rcount == 91)
                && (InLevel(c', 1, t) <==> 10 <= n <= 90) && (InLevel(c', 1, t) ==> Find(c', 1, t).rcount == n)
                && (Gone(c', t) <==> n < 10)
            else
              && (InLevel(c', 1, t) ==> Find(c', 1, t).rcount == n)
              && (!op.Remove? ==> InLevel(c', 1, t))
              && !InLevel(c', 0, t)
  {
    hide Updated, TagsDistinct;
    var n := Find(c, 1, t).rcount;
    NetOne(op, t);
    if op.Update? {
      UpdateTracks(c, op.oracle, c', 1, t, 0);
      UpdateTracks(c, op.oracle, c', 1, t, 1);
      UpdateTracks(c, op.oracle, c', 1, t, 2);
      LadderStep(c, op.oracle, 1, Find(c, 1, t));
    } else {
      OtherStepTracks(c, op, c', 1, t, 0);
      OtherStepTracks(c, op, c', 1, t, 1);
    }
  }

  lemma NetEmpty(t: nat)
    ensures Net([], t) == 0
  {}

  lemma NetNext(ops: seq<Op>, i: nat, j: nat, t: nat)
    requires i <= j < |ops|
    ensures Net(ops[i..j + 1], t) == Net(ops[i..j], t) + Net([ops[j]], t)
  {
    JudgedNext(ops, i, j, t);
    NetOne(ops[j], t);
  }

  /** In the middle level the count is exactly the count on entry plus the net gain since. */
  lemma {:induction false} MiddleCount(h: seq<Cache>, ops: seq<Op>, t: nat, i: nat, j: nat)
    requires Run(h, ops) && StaysIn(h, 1, t, i, j)
    ensures Find(h[j], 1, t).rcount == Find(h[i], 1, t).rcount + Net(ops[i..j], t)
  {
    hide Inv, Step, InLevel, Net;
    if i == j {
      NetEmpty(t);
      assert ops[i..j] == [];
    } else {
      MiddleCount(h, ops, t, i, j - 1);
      ReachableInv(h, ops, j - 1);
      ReachableInv(h, ops, j);
      MiddleStep(h[j - 1], ops[j - 1], h[j], t);
      NetNext(ops, i, j - 1, t);
    }
  }

  lemma JoinsWithFifty(c: Cache, op: Op, c': Cache, t: nat)
    requires Inv(c) && Step(c, op, c') && c'.Shaped() && !InLevel(c, 1, t) && InLevel(c', 1, t)
    ensures Find(c', 1, t).rcount == 50
  {
    hide Updated, TagsDistinct;
    var y := Find(c', 1, t);
    match op
    case Update(o) =>
      var from, x := Origin(c.levels, o, c'.levels, 1, y);
      FateKeepsTag(from, o, x);
      LadderStep(c, o, from, x);
    case Remove(id) => RemovedSubset(c, id, 1, y);
    case _ =>
  }

  /** An entry that appears in the middle level starts there with count 50. */
  lemma JoinsMiddleWithFifty(h: seq<Cache>, ops: seq<Op>, t: nat, k: nat)
    requires Run(h, ops) && k < |ops| && !InLevel(h[k], 1, t) && InLevel(h[k + 1], 1, t)
    ensures Find(h[k + 1], 1, t).rcount == 50
  {
    ReachableInv(h, ops, k);
    ReachableInv(h, ops, k + 1);
    JoinsWithFifty(h[k], ops[k], h[k + 1], t);
  }

  /**
   * The ladder over a run. From count 50 the entry stays in the middle level while its net gain is
   * within forty either way; the update that takes the gain to 41 promotes it, one that takes it
   * below -40 drops it, and apart from those only a failed hard requirement or RemovePeer takes it away.
   */
  lemma MiddleLadder(h: seq<Cache>, ops: seq<Op>, t: nat, i: nat, j: nat)
    requires Run(h, ops) && StaysIn(h, 1, t, i, j) && j < |ops|
    requires Find(h[i], 1, t).rcount == 50
    ensures -40 <= Net(ops[i..j], t) <= 40
    ensures var net := Net(ops[i..j + 1], t);
            if ops[j].Update? then
              if ops[j].oracle(t).Judge() == Fail then Gone(h[j + 1], t)
              else
                && (InLevel(h[j + 1], 0, t) <==> net == 41)
                && (InLevel(h[j + 1], 1, t) <==> -40 <= net <= 40)
                && (Gone(h[j + 1], t) <==> net < -40)
            else !ops[j].Remove? ==> InLevel(h[j + 1], 1, t)
  {
    hide Step, Net, TagsDistinct;
    MiddleCount(h, ops, t, i, j);
    ReachableInv(h, ops, j);
    ReachableInv(h, ops, j + 1);
    MiddleStep(h[j], ops[j], h[j + 1], t);
    NetNext(ops, i, j, t);
  }

  // --- GetPeer after an update ---

  ghost predicate Offers(s: seq<Entry>, hash: string) {
    exists e :: e in s && e.info.servHash == hash
  }

  /** e offers the service and nothing in s that offers it has a lower RTT. */
  ghost predicate Best(s: seq<Entry>, hash: string, e: Entry) {
    e in s && e.info.servHash == hash &&
    forall x :: x in s && x.info.servHash == hash ==> !x.info.perf.LessThan(e.info.perf)
  }

  lemma FirstOfferingIsBest(s: seq<Entry>, hash: string)
    requires Sorted(s)
    ensures Offers(s, hash) <==> FirstOffering(s, hash).Some?
    ensures FirstOffering(s, hash).Some? ==> Best(s, hash, FirstOffering(s, hash).value)
  {
    var r := FirstOffering(s, hash);
    if r.Some? {
      var i :| 0 <= i < |s| && s[i] == r.value && forall k :: 0 <= k < i ==> s[k].info.servHash != hash;
      forall x | x in s && x.info.servHash == hash
        ensures !x.info.perf.LessThan(r.value.info.perf)
      {
        var j :| 0 <= j < |s| && s[j] == x;
        assert i <= j;
      }
    }
  }

  lemma {:induction false} FirstOfferingConcat(a: seq<Entry>, b: seq<Entry>, hash: string)
    ensures FirstOffering(a + b, hash) == var r := FirstOffering(a, hash); if r.Some? then r else FirstOffering(b, hash)
  {
    if a == [] {
      assert a + b == b;
    } else {
      assert (a + b)[1..] == a[1..] + b;
      FirstOfferingConcat(a[1..], b, hash);
    }
  }

  function AddAll(c: Cache, adds: seq<PeerInfo>): (c': Cache)
    requires c.Shaped()
    ensures c'.Shaped()
    decreases |adds|
  {
    if adds == [] then c else AddAll(Added(c, adds[0]), adds[1..])
  }

  function NewEntries(adds: seq<PeerInfo>, tag: nat): seq<Entry> {
    if adds == [] then [] else [Entry(tag, 50, adds[0])] + NewEntries(adds[1..], tag + 1)
  }

  lemma {:induction false} AddAllAppends(c: Cache, adds: seq<PeerInfo>)
    requires c.Shaped()
    ensures AddAll(c, adds).levels == c.levels[1 := c.levels[1] + NewEntries(adds, c.nextTag)]
    decreases |adds|
  {
    if adds == [] {
      assert c.levels[1] + [] == c.levels[1];
    } else {
      AddAllAppends(Added(c, adds[0]), adds[1..]);
      var e := Entry(c.nextTag, 50, adds[0]);
      assert c.levels[1] + [e] + NewEntries(adds[1..], c.nextTag + 1) == c.levels[1] + NewEntries(adds, c.nextTag);
    }
  }

  lemma {:induction false} NewEntriesAt(adds: seq<PeerInfo>, tag: nat)
    ensures |NewEntries(adds, tag)| == |adds|
    ensures forall k :: 0 <= k < |adds| ==> NewEntries(adds, tag)[k] == Entry(tag + k, 50, adds[k])
  {
    if adds != [] { NewEntriesAt(adds[1..], tag + 1); }
  }

  /** Among entries never measured, the one added first is found. */
  lemma {:induction false} NewEntriesInOrder(adds: seq<PeerInfo>, tag: nat, hash: string)
    ensures var r := FirstOffering(NewEntries(adds, tag), hash);
            if r.Some? then exists i :: 0 <= i < |adds| && adds[i] == r.value.info && adds[i].servHash == hash
                                        && forall k :: 0 <= k < i ==> adds[k].servHash != hash
            else forall k :: 0 <= k < |adds| ==> adds[k].servHash != hash
  {
    if adds != [] {
      NewEntriesInOrder(adds[1..], tag + 1, hash);
      var r := FirstOffering(NewEntries(adds, tag), hash);
      var rest := FirstOffering(NewEntries(adds[1..], tag + 1), hash);
      assert NewEntries(adds, tag)[1..] == NewEntries(adds[1..], tag + 1);
      if adds[0].servHash != hash && r.Some? {
        var i :| 0 <= i < |adds| - 1 && adds[1..][i] == rest.value.info
                 && forall k :: 0 <= k < i ==> adds[1..][k].servHash != hash;
        assert adds[i + 1] == r.value.info;
        forall k | 0 <= k < i + 1 ensures adds[k].servHash != hash {
          assert k > 0 ==> adds[k] == adds[1..][k - 1];
        }
      }
    }
  }

  /** GetPeer then finds the best of the top level, else of the measured middle, else the oldest addition. */
  lemma GetPeerAfterUpdate(before: Cache, o: Oracle, c: Cache, adds: seq<PeerInfo>, hash: string)
    requires before.Shaped() && Updated(before.levels, o, c.levels)
    ensures var r := Selected(AddAll(c, adds), hash);
            if Offers(c.levels[0], hash) then r.Some? && Best(c.levels[0], hash, r.value)
            else if Offers(c.levels[1], hash) then r.Some? && Best(c.levels[1], hash, r.value)
            else if r.Some? then exists i :: 0 <= i < |adds| && adds[i] == r.value.info && adds[i].servHash == hash
                                             && forall k :: 0 <= k < i ==> adds[k].servHash != hash
            else forall k :: 0 <= k < |adds| ==> adds[k].servHash != hash
  {
    AddAllAppends(c, adds);
    FirstOfferingConcat(c.levels[1], NewEntries(adds, c.nextTag), hash);
    FirstOfferingIsBest(c.levels[0], hash);
    FirstOfferingIsBest(c.levels[1], hash);
    NewEntriesInOrder(adds, c.nextTag, hash);
  }

  /** No entry whose ping failed its hard requirement survives the update to be returned. */
  lemma NoFailedPeerIsKept(before: Cache, o: Oracle, c: Cache, l: nat, e: Entry)
    requires before.Shaped() && Updated(before.levels, o, c.levels) && l < LEVELS && e in c.levels[l]
    ensures o(e.tag).Judge() != Fail && e.info.perf.rtt == o(e.tag).rtt > 0
    ensures o(e.tag).rtt <= o(e.tag).needs.hard.rtt
  {
    hide Updated;
    var from, x := Origin(before.levels, o, c.levels, l, e);
    FateKeepsTag(from, o, x);
  }

  // --- RemovePeer ---

  ghost predicate InWindow(c: Cache, id: string)
    requires c.Shaped()
  {
    exists l, i :: 0 <= l < 2 && 0 <= i < |c.levels[l]| && i < RMAX && c.levels[l][i].info.id == id
  }

  function Size(c: Cache): nat
    requires c.Shaped()
  {
    |c.levels[0]| + |c.levels[1]| + |c.levels[2]|
  }

  lemma RemoveAt(c: Cache, l: nat, i: nat)
    requires c.Shaped() && l < 2 && i < |c.levels[l]|
    ensures var c' := c.(levels := c.levels[l := SwapRemove(c.levels[l], i)]);
            Size(c') == Size(c) - 1 && c.levels[l][i] in c.All() && c'.All() == c.All() - multiset{c.levels[l][i]}
  {
    SwapRemoveKeeps(c.levels[l], i);
    assert c.levels[l][i] in multiset(c.levels[l]);
  }

  /** RemovePeer takes out one entry with that ID exactly when a leading slot holds one, and else changes nothing. */
  lemma RemoveIsExact(c: Cache, id: string)
    requires c.Shaped()
    ensures var c' := Removed(c, id);
            if InWindow(c, id) then
              Size(c') == Size(c) - 1 &&
              exists e: Entry :: e.info.id == id && e in c.All() && c'.All() == c.All() - multiset{e}
            else c' == c
  {
    hide SwapRemove;
    var s0, s1 := SlotOf(c.levels[0], id), SlotOf(c.levels[1], id);
    if s0.Some? {
      RemoveAt(c, 0, s0.value);
    } else if s1.Some? {
      RemoveAt(c, 1, s1.value);
    }
  }

  /** Slot i of level l is the first in RemovePeer's window to hold its peer ID. */
  ghost predicate FirstInWindow(c: Cache, l: nat, i: nat)
    requires c.Shaped()
  {
    l < 2 && i < |c.levels[l]| && i < RMAX &&
    forall m, k :: 0 <= m < 2 && 0 <= k < |c.levels[m]| && k < RMAX && (m < l || (m == l && k < i))
      ==> c.levels[m][k].info.id != c.levels[l][i].info.id
  }

  lemma CountedOnce(c: Cache, e: Entry)
    requires Inv(c) && e in c.All()
    ensures c.All()[e] == 1
  {
    assert forall l :: 0 <= l < LEVELS ==> (e in multiset(c.levels[l]) <==> e in c.levels[l]);
  }

  /** The slot that RemovePeer's scan stops at, if it does. */
  lemma ScanStops(c: Cache, id: string) returns (l: nat, i: nat)
    requires c.Shaped() && InWindow(c, id)
    ensures FirstInWindow(c, l, i) && c.levels[l][i].info.id == id
    ensures Removed(c, id).levels == c.levels[l := SwapRemove(c.levels[l], i)]
  {
    var s0, s1 := SlotOf(c.levels[0], id), SlotOf(c.levels[1], id);
    if s0.Some? {
      l, i := 0, s0.value;
    } else {
      l, i := 1, s1.value;
    }
  }

  /** RemovePeer touches one slot of one level: the level's old last entry takes it, and the level is one shorter. */
  lemma RemovedSlots(c: Cache, id: string) returns (l: nat, i: nat)
    requires c.Shaped() && InWindow(c, id)
    ensures FirstInWindow(c, l, i) && c.levels[l][i].info.id == id
    ensures var (c', s, r) := (Removed(c, id), c.levels[l], Removed(c, id).levels[l]);
            && c'.nextTag == c.nextTag && (forall m :: 0 <= m < LEVELS && m != l ==> c'.levels[m] == c.levels[m])
            && |r| == |s| - 1 && forall k :: 0 <= k < |r| ==> r[k] == if k == i then s[|s| - 1] else s[k]
  {
    l, i := ScanStops(c, id);
    SwapRemoveSlots(c.levels[l], i);
    hide SwapRemove, FirstInWindow;
  }

  lemma FirstIsUnique(c: Cache, l: nat, i: nat, m: nat, k: nat)
    requires c.Shaped() && FirstInWindow(c, l, i) && FirstInWindow(c, m, k)
    requires c.levels[l][i].info.id == c.levels[m][k].info.id
    ensures l == m && i == k
  {}

  lemma RemoveTakes(c: Cache, e: Entry) returns (l: nat, i: nat)
    requires Inv(c) && e in c.All() && InWindow(c, e.info.id)
    ensures FirstInWindow(c, l, i) && c.levels[l][i].info.id == e.info.id
    ensures e !in Removed(c, e.info.id).All() <==> c.levels[l][i] == e
  {
    CountedOnce(c, e);
    hide Inv, SwapRemove;
    l, i := ScanStops(c, e.info.id);
    hide FirstInWindow, InWindow;
    RemoveAt(c, l, i);
  }

  lemma SelectedIsCached(c: Cache, hash: string)
    requires c.Shaped() && Selected(c, hash).Some?
    ensures Selected(c, hash).value in c.All()
  {
    var e := Selected(c, hash).value;
    assert e in multiset(c.levels[0]) || e in multiset(c.levels[1]);
  }

  /**
   * RemovePeer takes out the very entry that GetPeer returned exactly when that entry stands in the
   * first slot of the window that holds its ID: another entry with this ID may come before it, or it
   * may stand behind the window.
   */
  lemma RemoveTakesReturned(c: Cache, hash: string)
    requires Inv(c) && Selected(c, hash).Some?
    ensures var e := Selected(c, hash).value;
            e !in Removed(c, e.info.id).All() <==>
              exists l: nat, i: nat :: FirstInWindow(c, l, i) && c.levels[l][i] == e
  {
    var e := Selected(c, hash).value;
    SelectedIsCached(c, hash);
    hide Selected, Inv;
    if InWindow(c, e.info.id) {
      var l, i := RemoveTakes(c, e);
      hide Removed, FirstInWindow, InWindow;
      forall m: nat, k: nat | FirstInWindow(c, m, k) && c.levels[m][k] == e
        ensures m == l && k == i
      {
        FirstIsUnique(c, l, i, m, k);
      }
    } else {
      RemoveIsExact(c, e.info.id);
    }
  }

  lemma {:induction false} FirstOfferingSkips(s: seq<Entry>, e: Entry)
    requires forall x :: x in s ==> x.info.servHash != e.info.servHash
    ensures FirstOffering(s + [e], e.info.servHash) == Some(e)
  {
    if s == [] {
      assert s + [e] == [e];
    } else {
      assert (s + [e])[1..] == s[1..] + [e];
      assert s[0] in s;
      FirstOfferingSkips(s[1..], e);
    }
  }

  /** A peer behind RMAX entries of other services and IDs is returned by GetPeer and out of RemovePeer's reach. */
  lemma OutOfReach(others: seq<Entry>, e: Entry, tag: nat)
    requires |others| >= RMAX
    requires forall x :: x in others ==> x.info.servHash != e.info.servHash && x.info.id != e.info.id
    ensures var c := Cache([[], others + [e], []], tag);
            Selected(c, e.info.servHash) == Some(e) && Removed(c, e.info.id) == c
  {
    var s := others + [e];
    FirstOfferingSkips(others, e);
    assert forall k :: 0 <= k < RMAX ==> s[k] in others;
    assert SlotOf(s, e.info.id).None?;
    assert SlotOf([], e.info.id).None?;
  }

  lemma {:induction false} AddAllLast(c: Cache, adds: seq<PeerInfo>, info: PeerInfo)
    requires c.Shaped()
    ensures AddAll(c, adds + [info]) == Added(AddAll(c, adds), info)
    decreases |adds|
  {
    if adds == [] {
      assert [] + [info] == [info];
    } else {
      assert (adds + [info])[1..] == adds[1..] + [info];
      AddAllLast(Added(c, adds[0]), adds[1..], info);
    }
  }

  /** An entry of another service with the same ID is taken in place of the one GetPeer returns. */
  lemma Shadowed(d: Entry, e: Entry, tag: nat)
    requires d.info.id == e.info.id && d.info.servHash != e.info.servHash
    ensures var c, c' := Cache([[], [d, e], []], tag), Cache([[], [e], []], tag);
            Removed(c, e.info.id) == c' && Selected(c, e.info.servHash) == Selected(c', e.info.servHash) == Some(e)
  {
    assert [d, e][1..] == [e];
    assert SlotOf([], e.info.id).None? && SlotOf([d, e], e.info.id) == Some(0);
    assert SwapRemove([d, e], 0) == [e];
  }

  lemma AddedToEmpty(adds: seq<PeerInfo>)
    ensures AddAll(EMPTY, adds).levels == [[], NewEntries(adds, 0), []]
  {
    AddAllAppends(EMPTY, adds);
    assert [] + NewEntries(adds, 0) == NewEntries(adds, 0);
  }

  /** Any additions to an empty cache are a run. */
  lemma AddsAreARun(adds: seq<PeerInfo>) returns (h: seq<Cache>, ops: seq<Op>)
    ensures Run(h, ops) && h[|ops|] == AddAll(EMPTY, adds)
  {
    h := seq(|adds| + 1, k requires 0 <= k <= |adds| => AddAll(EMPTY, adds[..k]));
    ops := seq(|adds|, k requires 0 <= k < |adds| => Add(adds[k]));
    forall k | 0 <= k < |ops| ensures Step(h[k], ops[k], h[k + 1]) {
      assert adds[..k + 1] == adds[..k] + [adds[k]];
      AddAllLast(EMPTY, adds[..k], adds[k]);
    }
    assert adds[..|adds|] == adds;
  }

  function Peer(id: string, hash: string): PeerInfo {
    PeerInfo(id, hash, hash, PerfInd(0))
  }

  /** First instance: the peer stands behind the window, and RemovePeer changes nothing. */
  lemma RemoveCanMissGet()
    ensures exists h, ops, hash :: Run(h, ops) && Selected(h[|ops|], hash).Some?
              && Removed(h[|ops|], Selected(h[|ops|], hash).value.info.id) == h[|ops|]
  {
    var adds := [Peer("w", "a"), Peer("x", "a"), Peer("y", "a"), Peer("z", "b")];
    var h, ops := AddsAreARun(adds);
    AddedToEmpty(adds);
    NewEntriesAt(adds, 0);
    hide Run, AddAll, NewEntries;
    var c, e := h[|ops|], Entry(3, 50, adds[3]);
    var others := NewEntries(adds, 0)[..3];
    assert c == Cache([[], others + [e], []], c.nextTag);
    OutOfReach(others, e, c.nextTag);
    hide Selected, Removed;
    assert Selected(c, "b") == Some(e);
  }

  /** Second instance: an entry with the same ID stands before it, and RemovePeer takes that one. */
  lemma RemoveCanTakeAnother()
    ensures exists h, ops, hash :: Run(h, ops) && Selected(h[|ops|], hash).Some? &&
              var (c, e) := (h[|ops|], Selected(h[|ops|], hash).value);
              Removed(c, e.info.id) != c && Selected(Removed(c, e.info.id), hash) == Some(e)
  {
    var adds := [Peer("x", "a"), Peer("x", "b")];
    var h, ops := AddsAreARun(adds);
    AddedToEmpty(adds);
    NewEntriesAt(adds, 0);
    hide Run, AddAll, NewEntries;
    var c, d, e := h[|ops|], Entry(0, 50, adds[0]), Entry(1, 50, adds[1]);
    assert NewEntries(adds, 0) == [d, e];
    assert c == Cache([[], [d, e], []], c.nextTag);
    Shadowed(d, e, c.nextTag);
    hide Selected, Removed;
    assert Selected(c, "b") == Some(e);
  }

  // --- Draining the cache by GetPeer then RemovePeer of the result ---

  function Round(c: Cache, hash: string): (c': Cache)
    requires c.Shaped()
    ensures c'.Shaped()
  {
    var e := Selected(c, hash);
    if e.None? then c else Removed(c, e.value.info.id)
  }

  function Rounds(c: Cache, hash: string, k: nat): (c': Cache)
    requires c.Shaped()
    ensures c'.Shaped()
  {
    if k == 0 then c else Round(Rounds(c, hash, k - 1), hash)
  }

  ghost predicate OneService(c: Cache, hash: string)
    requires c.Shaped()
  {
    c.levels[2] == [] && forall l, e :: 0 <= l < LEVELS && e in c.levels[l] ==> e.info.servHash == hash
  }

  lemma SwapHead(c: Cache, hash: string)
    requires c.Shaped() && |c.levels[0]| >= 2 && forall e :: e in c.levels[0] ==> e.info.servHash == hash
    ensures var s := c.levels[0];
            Selected(c, hash) == Some(s[0]) && Selected(Removed(c, s[0].info.id), hash) == Some(s[|s| - 1])
  {
    var s := c.levels[0];
    assert s[0] in s && s[|s| - 1] in s;
    assert SlotOf(s, s[0].info.id) == Some(0);
    SwapRemoveSlots(s, 0);
    hide SwapRemove;
    assert Removed(c, s[0].info.id).levels[0][0] == s[|s| - 1];
  }

  lemma UpdatedSorted(before: seq<seq<Entry>>, o: Oracle, after: seq<seq<Entry>>)
    requires Updated(before, o, after)
    ensures |after| == LEVELS && Sorted(after[0])
  {}

  lemma LastIsSlowest(s: seq<Entry>)
    requires Sorted(s) && s != []
    ensures forall e :: e in s ==> !s[|s| - 1].info.perf.LessThan(e.info.perf)
  {
    forall e | e in s ensures !s[|s| - 1].info.perf.LessThan(e.info.perf) {
      var k :| 0 <= k < |s| && s[k] == e;
    }
  }

  /**
   * The swap undoes the order an update made: where the top level is of one service, the peer that
   * GetPeer gives once its first answer is removed is the one with the highest RTT there.
   */
  lemma SlowestComesNext(before: Cache, o: Oracle, c: Cache, hash: string)
    requires c.Shaped() && |c.levels[0]| >= 2 && forall e :: e in c.levels[0] ==> e.info.servHash == hash
    requires before.Shaped() && Updated(before.levels, o, c.levels)
    ensures var (first, last) := (c.levels[0][0], c.levels[0][|c.levels[0]| - 1]);
            && Selected(c, hash) == Some(first)
            && Selected(Removed(c, first.info.id), hash) == Some(last)
            && forall e :: e in c.levels[0] ==> !last.info.perf.LessThan(e.info.perf)
  {
    hide Updated, Sorted, Selected, Removed;
    UpdatedSorted(before.levels, o, c.levels);
    LastIsSlowest(c.levels[0]);
    SwapHead(c, hash);
  }

  lemma RoundRemovesOne(c: Cache, hash: string)
    requires c.Shaped() && OneService(c, hash)
    ensures OneService(Round(c, hash), hash)
    ensures Size(Round(c, hash)) == if Size(c) > 0 then Size(c) - 1 else 0
    ensures Selected(c, hash).Some? <==> Size(c) > 0
  {
    if Size(c) > 0 {
      var l := if c.levels[0] != [] then 0 else 1;
      assert c.levels[l][0] in c.levels[l];
      assert Selected(c, hash) == Some(c.levels[l][0]);
      RemoveIsExact(c, c.levels[l][0].info.id);
      forall m, e | 0 <= m < LEVELS && e in Round(c, hash).levels[m]
        ensures e in c.levels[m]
      {
        RemovedSubset(c, c.levels[l][0].info.id, m, e);
      }
      assert Round(c, hash).levels[2] == [];
    }
  }

  /** When all entries offer one service, exactly as many rounds as entries empty the cache. */
  lemma {:induction false} Drains(c: Cache, hash: string, k: nat)
    requires c.Shaped() && OneService(c, hash)
    ensures OneService(Rounds(c, hash, k), hash)
    ensures Size(Rounds(c, hash, k)) == if k <= Size(c) then Size(c) - k else 0
    ensures Selected(Rounds(c, hash, k), hash).None? <==> k >= Size(c)
  {
    hide Selected, Round, OneService;
    if k > 0 {
      Drains(c, hash, k - 1);
      RoundRemovesOne(Rounds(c, hash, k - 1), hash);
    }
    RoundRemovesOne(Rounds(c, hash, k), hash);
  }
}
