/** Finding or allocating a peer for a service: the loop of l4-proxy and the loop of proxy. */
module FindAlloc {
  import opened Common
  import opened PeerCacheSpec
  import opened PeerCacheStore

  datatype Found = Found(id: string, perf: PerfInd)

  /**
   * The answers one attempt meets: FindService, whether AllocService succeeds, what FindService says
   * on each backoff attempt after it, and whether AllocBetterService succeeds.
   */
  datatype Answers = Answers(find: Option<Found>, alloc: bool, refinds: seq<Option<Found>>, better: bool)

  datatype Service = Service(name: string, contentHash: string, softReq: PerfInd)

  const MAX_ATTEMPTS: nat := 3

  /** What an attempt leaves behind: a peer ID, empty if none, and the error seen outside the inner loop. */
  datatype Result = Result(id: string, err: bool)

  function FirstFound(refinds: seq<Option<Found>>): string {
    if refinds == [] then ""
    else if refinds[0].Some? then refinds[0].value.id
    else FirstFound(refinds[1..])
  }

  function Attempt(service: Service, a: Answers): Result {
    if a.find.None? then
      if a.alloc then Result(FirstFound(a.refinds), false) else Result("", true)
    else if service.softReq.LessThan(a.find.value.perf) then Result(a.find.value.id, !a.better)
    else Result(a.find.value.id, false)
  }

  /** The attempt that decides: the first from k on that names a peer, or the last. */
  function Deciding(service: Service, answers: nat -> Answers, k: nat := 0): (n: nat)
    requires k < MAX_ATTEMPTS
    ensures k <= n < MAX_ATTEMPTS
    decreases MAX_ATTEMPTS - k
  {
    if k == MAX_ATTEMPTS - 1 || Attempt(service, answers(k)).id != "" then k else Deciding(service, answers, k + 1)
  }

  /** How often AllocService is called in the first n attempts. */
  function AllocCalls(answers: nat -> Answers, n: nat): (c: nat)
    ensures c <= n
  {
    if n == 0 then 0 else AllocCalls(answers, n - 1) + if answers(n - 1).find.None? then 1 else 0
  }

  function Cached(cache: Cache, service: Service): Option<string>
    requires cache.Shaped()
  {
    var e := Selected(cache, service.contentHash);
    if e.Some? then Some(e.value.info.id) else None
  }

  /** The peer chosen, and the cache afterwards. */
  function Outcome(cache: Cache, service: Service, answers: nat -> Answers): (Option<string>, Cache)
    requires cache.Shaped()
  {
    var hit := Cached(cache, service);
    if hit.Some? then (if hit.value == "" then None else hit, cache)
    else
      var r := Attempt(service, answers(Deciding(service, answers)));
      (if r.id == "" then None else Some(r.id),
       if !r.err && r.id != ""
       then Added(cache, PeerInfo(r.id, service.name, service.contentHash, PerfInd(0)))
       else cache)
  }

  /** The backoff loop; its error variable is its own, so the caller does not see it. */
  method Refind(refinds: seq<Option<Found>>) returns (id: string)
    ensures id == FirstFound(refinds)
  {
    id := "";
    for k := 0 to |refinds|
      invariant id == "" && FirstFound(refinds) == FirstFound(refinds[k..])
    {
      if refinds[k].Some? {
        return refinds[k].value.id;
      }
      assert refinds[k..][1..] == refinds[k + 1..];
    }
  }

  /** l4-proxy: the peer is cached after the loop, from the variables the loop leaves behind. */
  method FindOrAllocate(cache: PeerCache, service: Service, answers: nat -> Answers)
      returns (peer: Option<string>, ghost allocs: nat)
    requires cache.Valid()
    modifies cache
    ensures cache.Valid() && (peer, cache.View()) == Outcome(old(cache.View()), service, answers)
    ensures allocs <= MAX_ATTEMPTS
    ensures allocs == if Cached(old(cache.View()), service).Some? then 0
                      else AllocCalls(answers, Deciding(service, answers) + 1)
  {
    allocs := 0;
    var hit := cache.GetPeer(service.contentHash);
    var id, err := "", true;
    if hit.Some? {
      id := hit.value;
    } else {
      var attempts := 0;
      while attempts < MAX_ATTEMPTS && id == ""
        invariant attempts <= MAX_ATTEMPTS && cache.View() == old(cache.View())
        invariant id == "" && attempts < MAX_ATTEMPTS ==>
                    Deciding(service, answers) == Deciding(service, answers, attempts)
        invariant id != "" || attempts == MAX_ATTEMPTS ==>
                    && attempts > 0 && Deciding(service, answers) == attempts - 1
                    && Result(id, err) == Attempt(service, answers(attempts - 1))
        invariant allocs == AllocCalls(answers, attempts)
      {
        var a := answers(attempts);
        attempts := attempts + 1;
        if a.find.None? {
          id := "";
          allocs := allocs + 1;
          if !a.alloc {
            err := true;
            continue;
          }
          err := false;
          id := Refind(a.refinds);
        } else {
          id, err := a.find.value.id, false;
          if service.softReq.LessThan(a.find.value.perf) {
            err := !a.better;
          }
        }
      }
      if !err && id != "" {
        cache.AddPeer(PeerInfo(id, service.name, service.contentHash, PerfInd(0)));
      }
    }
    peer := if id == "" then None else Some(id);
  }

  /** proxy: the peer is cached inside the loop, by the attempt that found it. */
  method FindForRequest(cache: PeerCache, service: Service, answers: nat -> Answers)
      returns (peer: Option<string>, ghost allocs: nat)
    requires cache.Valid()
    modifies cache
    ensures cache.Valid() && (peer, cache.View()) == Outcome(old(cache.View()), service, answers)
    ensures allocs <= MAX_ATTEMPTS
    ensures allocs == if Cached(old(cache.View()), service).Some? then 0
                      else AllocCalls(answers, Deciding(service, answers) + 1)
  {
    allocs := 0;
    var hit := cache.GetPeer(service.contentHash);
    var id, err := "", true;
    if hit.Some? {
      id := hit.value;
    } else {
      var attempts := 0;
      while attempts < MAX_ATTEMPTS && id == ""
        invariant attempts <= MAX_ATTEMPTS && cache.Valid()
        invariant id == "" ==> cache.View() == old(cache.View())
        invariant id == "" && attempts < MAX_ATTEMPTS ==>
                    Deciding(service, answers) == Deciding(service, answers, attempts)
        invariant id != "" || attempts == MAX_ATTEMPTS ==>
                    && attempts > 0 && Deciding(service, answers) == attempts - 1
                    && id == Attempt(service, answers(attempts - 1)).id
                    && cache.View() == Outcome(old(cache.View()), service, answers).1
        invariant allocs == AllocCalls(answers, attempts)
      {
        var a := answers(attempts);
        attempts := attempts + 1;
        if a.find.None? {
          id := "";
          allocs := allocs + 1;
          if !a.alloc {
            err := true;
            continue;
          }
          err := false;
          id := Refind(a.refinds);
        } else {
          id, err := a.find.value.id, false;
          if service.softReq.LessThan(a.find.value.perf) {
            err := !a.better;
          }
        }
        if !err && id != "" {
          cache.AddPeer(PeerInfo(id, service.name, service.contentHash, PerfInd(0)));
        }
      }
    }
    peer := if id == "" then None else Some(id);
  }

  /** The i-th backoff attempt is the first that FindService answers. */
  predicate FirstAnswer(refinds: seq<Option<Found>>, i: nat) {
    i < |refinds| && refinds[i].Some? && forall k :: 0 <= k < i ==> refinds[k].None?
  }

  /** FindService names this peer in the attempt: at once, or first after a successful allocation. */
  ghost predicate Names(a: Answers, id: string) {
    id != "" &&
    if a.find.Some? then a.find.value.id == id
    else a.alloc && exists i: nat :: FirstAnswer(a.refinds, i) && a.refinds[i].value.id == id
  }

  lemma {:induction false} FirstFoundIsFirst(refinds: seq<Option<Found>>, i: nat)
    requires FirstAnswer(refinds, i)
    ensures FirstFound(refinds) == refinds[i].value.id
  {
    if i > 0 {
      assert refinds[0].None?;
      FirstFoundIsFirst(refinds[1..], i - 1);
    }
  }

  lemma {:induction false} FirstFoundAnswered(refinds: seq<Option<Found>>) returns (i: nat)
    requires FirstFound(refinds) != ""
    ensures FirstAnswer(refinds, i) && refinds[i].value.id == FirstFound(refinds)
  {
    if refinds[0].Some? {
      i := 0;
    } else {
      i := FirstFoundAnswered(refinds[1..]);
      i := i + 1;
    }
  }

  /** An attempt leaves behind the peer it names, if any. */
  lemma AttemptNames(service: Service, a: Answers, id: string)
    ensures Names(a, id) <==> id != "" && Attempt(service, a).id == id
  {
    if a.find.None? && a.alloc {
      if i: nat :| FirstAnswer(a.refinds, i) && a.refinds[i].value.id == id {
        FirstFoundIsFirst(a.refinds, i);
      }
      if FirstFound(a.refinds) != "" {
        var i := FirstFoundAnswered(a.refinds);
      }
    }
  }

  /** The peer found at once is slower than required and no faster allocator could start another. */
  predicate SlowAndStuck(service: Service, a: Answers) {
    a.find.Some? && a.find.value.perf.rtt > service.softReq.rtt && !a.better
  }

  lemma {:induction false} DecidingIsFirst(service: Service, answers: nat -> Answers, k: nat)
    requires k < MAX_ATTEMPTS
    ensures var n := Deciding(service, answers, k);
            && (forall j :: k <= j < n ==> Attempt(service, answers(j)).id == "")
            && (Attempt(service, answers(n)).id == "" ==> n == MAX_ATTEMPTS - 1)
    decreases MAX_ATTEMPTS - k
  {
    if k < MAX_ATTEMPTS - 1 { DecidingIsFirst(service, answers, k + 1); }
  }

  lemma {:induction false} AddedLast(s: seq<Entry>, e: Entry)
    requires FirstOffering(s, e.info.servHash).None?
    ensures FirstOffering(s + [e], e.info.servHash) == Some(e)
  {
    if s != [] {
      assert (s + [e])[1..] == s[1..] + [e];
      AddedLast(s[1..], e);
      assert s[0] in s;
    } else {
      assert s + [e] == [e];
    }
  }

  /** A peer cached on a miss is what the next lookup finds. */
  lemma AddedIsSelected(cache: Cache, info: PeerInfo)
    requires cache.Shaped() && Selected(cache, info.servHash).None?
    ensures Selected(Added(cache, info), info.servHash) == Some(Entry(cache.nextTag, 50, info))
  {
    AddedLast(cache.levels[1], Entry(cache.nextTag, 50, info));
  }

  /** The peer is the one named by attempt j, and no attempt before j names any. */
  ghost predicate NamedFirst(answers: nat -> Answers, j: nat, id: string) {
    j < MAX_ATTEMPTS && Names(answers(j), id) && forall k, other :: 0 <= k < j ==> !Names(answers(k), other)
  }

  lemma DecidingNames(service: Service, answers: nat -> Answers, id: string)
    ensures var r := Attempt(service, answers(Deciding(service, answers)));
            && (id != "" && r.id == id ==> NamedFirst(answers, Deciding(service, answers), id))
            && (r.id == "" ==> forall k, other :: 0 <= k < MAX_ATTEMPTS ==> !Names(answers(k), other))
  {
    DecidingIsFirst(service, answers, 0);
    forall k: nat, other: string
      ensures Names(answers(k), other) <==> other != "" && Attempt(service, answers(k)).id == other
    {
      AttemptNames(service, answers(k), other);
    }
  }

  lemma OneFirst(answers: nat -> Answers, j: nat, k: nat, id: string)
    requires NamedFirst(answers, j, id) && NamedFirst(answers, k, id)
    ensures j == k
  {}

  /**
   * On a miss the peer returned is the one FindService names first: in the least attempt that names
   * one, at once or as the first answer after a successful allocation. None is returned exactly when
   * none of the three attempts names one.
   */
  lemma PeerIsNamedFirst(cache: Cache, service: Service, answers: nat -> Answers, id: string)
    requires cache.Shaped() && Cached(cache, service).None?
    ensures var peer := Outcome(cache, service, answers).0;
            && (peer == Some(id) <==> exists j: nat :: NamedFirst(answers, j, id))
            && (peer.None? <==> forall j, other :: 0 <= j < MAX_ATTEMPTS ==> !Names(answers(j), other))
            && (peer.None? ==>
                  Outcome(cache, service, answers).1 == cache && Deciding(service, answers) == MAX_ATTEMPTS - 1)
  {
    DecidingIsFirst(service, answers, 0);
    var n := Deciding(service, answers);
    var r := Attempt(service, answers(n));
    DecidingNames(service, answers, id);
    DecidingNames(service, answers, r.id);
    if j: nat :| NamedFirst(answers, j, id) {
      AttemptNames(service, answers(j), id);
      if r.id != "" {
        assert Names(answers(n), r.id) && Names(answers(j), id);
        AttemptNames(service, answers(n), id);
      }
    }
  }

  /** A hit is returned as it is, unless its ID is empty, and changes nothing. */
  lemma HitIsReturned(cache: Cache, service: Service, answers: nat -> Answers)
    requires cache.Shaped() && Selected(cache, service.contentHash).Some?
    ensures var (peer, after) := Outcome(cache, service, answers);
            var id := Selected(cache, service.contentHash).value.info.id;
            after == cache && peer == if id == "" then None else Some(id)
  {}

  /**
   * A peer named on a miss is added to the cache, once and unmeasured, unless it was found too slow
   * and no faster allocator could start another; it is then what the next lookup finds.
   */
  lemma PeerIsAccountedFor(cache: Cache, service: Service, answers: nat -> Answers, j: nat, id: string)
    requires cache.Shaped() && Cached(cache, service).None? && NamedFirst(answers, j, id)
    ensures Deciding(service, answers) == j
    ensures var after := Outcome(cache, service, answers).1;
            var e := Entry(cache.nextTag, 50, PeerInfo(id, service.name, service.contentHash, PerfInd(0)));
            if SlowAndStuck(service, answers(j)) then after == cache
            else
              && after == Cache(cache.levels[1 := cache.levels[1] + [e]], cache.nextTag + 1)
              && Selected(after, service.contentHash) == Some(e)
  {
    PeerIsNamedFirst(cache, service, answers, id);
    var n := Deciding(service, answers);
    DecidingNames(service, answers, id);
    OneFirst(answers, j, n, id);
    AddedIsSelected(cache, PeerInfo(id, service.name, service.contentHash, PerfInd(0)));
  }

  /** AllocService is called once in every attempt whose first FindService fails. */
  lemma {:induction false} AllocsCounted(answers: nat -> Answers, n: nat)
    ensures AllocCalls(answers, n) == |set j: nat | j < n && answers(j).find.None?|
  {
    var now := set j: nat | j < n && answers(j).find.None?;
    if n == 0 {
      assert now == {};
    } else {
      AllocsCounted(answers, n - 1);
      var before := set j: nat | j < n - 1 && answers(j).find.None?;
      assert now == before + if answers(n - 1).find.None? then {n - 1} else {};
    }
  }

  // --- AllocBetterService ---

  /** An allocator: its measured performance, and whether it can be reached and starts the service. */
  datatype Allocator = Allocator(id: string, perf: PerfInd, contact: bool, starts: bool) {
    predicate Works() {
      contact && starts
    }
  }

  /** Stopping at the first allocator that is too slow finds, on a sorted list, the best one that works and is not. */
  method AllocBetterService(peers: seq<Allocator>, perf: PerfInd) returns (chosen: Option<Allocator>)
    requires forall i, j :: 0 <= i < j < |peers| ==> !peers[j].perf.LessThan(peers[i].perf)
    ensures chosen.Some? <==> exists p :: p in peers && p.Works() && !perf.LessThan(p.perf)
    ensures chosen.Some? ==> chosen.value in peers && chosen.value.Works() && !perf.LessThan(chosen.value.perf)
    ensures chosen.Some? ==> forall p :: p in peers && p.Works() ==> !p.perf.LessThan(chosen.value.perf)
  {
    for k := 0 to |peers|
      invariant forall j :: 0 <= j < k ==> !peers[j].Works()
    {
      if perf.LessThan(peers[k].perf) {
        return None;
      }
      if !peers[k].contact {
        continue;
      }
      if !peers[k].starts {
        continue;
      }
      return Some(peers[k]);
    }
    return None;
  }
}
