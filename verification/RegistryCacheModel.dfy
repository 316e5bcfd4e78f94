/** The registry cache of rcache/registry-cache.go, one caller at a time and with callers interleaved. */
module RegistryCacheModel {
  import opened Common

  /** Times are on one monotone clock. */
  datatype Entry<Info> = Entry(info: Info, expiry: int)

  function Lookup<Info>(data: map<string, Entry<Info>>, name: string, now: int): Option<Info> {
    if name in data && now <= data[name].expiry then Some(data[name].info) else None
  }

  /** One GetOrRequestService call on its own: what it returns and the table it leaves. */
  function Requested<Info>(data: map<string, Entry<Info>>, ttl: nat, name: string, now: int,
                           answer: Option<Info>, later: int)
      : (Option<Info>, map<string, Entry<Info>>) {
    var hit := Lookup(data, name, now);
    if hit.Some? then (hit, data)
    else (answer, if answer.Some? then data[name := Entry(answer.value, later + ttl)] else data)
  }

  /** A call at t1 asks the registry, which answers at t2; a call at t3 reuses it up to t2 + ttl and no longer. */
  lemma AnswerLastsTtl<Info>(data: map<string, Entry<Info>>, ttl: nat, name: string, t1: int, first: Info, t2: int,
                             t3: int, second: Option<Info>, t4: int)
    requires Lookup(data, name, t1).None?
    ensures var (r1, data1) := Requested(data, ttl, name, t1, Some(first), t2);
            var (r2, data2) := Requested(data1, ttl, name, t3, second, t4);
            && r1 == Some(first) && r2 == (if t3 <= t2 + ttl then Some(first) else second)
            && (data2 == data1 <==> t3 <= t2 + ttl || second.None? || (second == Some(first) && t4 == t2))
            && data1.Keys == data.Keys + {name} && data2.Keys == data1.Keys
            && forall k :: k in data && k != name ==> data1[k] == data2[k] == data[k]
  {
    var (r1, data1) := Requested(data, ttl, name, t1, Some(first), t2);
    var (r2, data2) := Requested(data1, ttl, name, t3, second, t4);
    assert data1[name] == Entry(first, t2 + ttl);
    assert t3 > t2 + ttl && second.Some? ==> data2[name] == Entry(second.value, t4 + ttl);
  }

  class RegistryCache<Info(!new)> {
    var data: map<string, Entry<Info>>
    const ttl: nat

    constructor (ttl: nat)
      ensures data == map[] && this.ttl == ttl
    {
      this.ttl := ttl;
      data := map[];
    }

    method Add(name: string, info: Info, now: int)
      modifies this
      ensures data == old(data)[name := Entry(info, now + ttl)]
    {
      var entry := Entry(info, now + ttl);
      data := data[name := entry];
    }

    method Get(name: string, now: int) returns (info: Option<Info>)
      ensures info == Lookup(data, name, now)
    {
      if name !in data {
        return None;
      }
      var entry := data[name];
      if now > entry.expiry {
        return None;
      }
      return Some(entry.info);
    }

    method Delete(name: string)
      modifies this
      ensures data == map k | k in old(data) && k != name :: old(data)[k]
    {
      data := map k | k in data && k != name :: data[k];
    }

    /** The registry's answer, when one is needed, arrives at time `later`. */
    method GetOrRequestService(name: string, now: int, answer: Option<Info>, later: int) returns (info: Option<Info>)
      modifies this
      ensures (info, data) == Requested(old(data), ttl, name, now, answer, later)
    {
      info := Get(name, now);
      if info.None? {
        if answer.None? {
          return None;
        }
        Add(name, answer.value, later);
        info := answer;
      }
    }
  }

  // --- Interleaved callers ---

  /** How far one GetOrRequestService call has come. */
  datatype Task<Info> =
    | Started(name: string)
    | Looked(name: string, entry: Option<Entry<Info>>)
    | Asking(name: string)
    | Answered(name: string, info: Info)
    | Stamped(name: string, stamp: Entry<Info>)
    | Finished

  datatype Event<Info> =
    | Reply(name: string, info: Info)
    | Store(name: string, info: Info, at: int)
    | Hit(name: string, info: Info, at: int)

  datatype System<Info> = System(
    clock: int, data: map<string, Entry<Info>>, tasks: map<nat, Task<Info>>, log: seq<Event<Info>>)

  datatype Step<Info> =
    | Tick(dt: nat)
    | Call(task: nat, name: string)
    | Advance(task: nat, answer: Option<Info>)
    | Erase(name: string)

  function Put<Info>(s: System<Info>, id: nat, t: Task<Info>): System<Info> {
    s.(tasks := s.tasks[id := t])
  }

  /** The next step of one call: read under the lock, check the clock, ask, compute the expiry, store under the lock. */
  function Move<Info>(ttl: nat, s: System<Info>, id: nat, answer: Option<Info>): System<Info>
    requires id in s.tasks
  {
    match s.tasks[id]
    case Started(name) => Put(s, id, Looked(name, if name in s.data then Some(s.data[name]) else None))
    case Looked(name, entry) =>
      if entry.Some? && s.clock <= entry.value.expiry then
        Put(s.(log := s.log + [Hit(name, entry.value.info, s.clock)]), id, Finished)
      else Put(s, id, Asking(name))
    case Asking(name) =>
      if answer.Some? then Put(s.(log := s.log + [Reply(name, answer.value)]), id, Answered(name, answer.value))
      else Put(s, id, Finished)
    case Answered(name, info) => Put(s, id, Stamped(name, Entry(info, s.clock + ttl)))
    case Stamped(name, stamp) =>
      Put(s.(data := s.data[name := stamp], log := s.log + [Store(name, stamp.info, s.clock)]), id, Finished)
    case Finished => s
  }

  function Do<Info>(ttl: nat, s: System<Info>, step: Step<Info>): System<Info> {
    match step
    case Tick(dt) => s.(clock := s.clock + dt)
    case Call(id, name) => if id in s.tasks then s else Put(s, id, Started(name))
    case Advance(id, answer) => if id in s.tasks then Move(ttl, s, id, answer) else s
    case Erase(name) => s.(data := map k | k in s.data && k != name :: s.data[k])
  }

  function Fresh<Info>(): System<Info> {
    System(0, map[], map[], [])
  }

  function After<Info>(ttl: nat, steps: seq<Step<Info>>): System<Info> {
    if steps == [] then Fresh() else Do(ttl, After(ttl, steps[..|steps| - 1]), steps[|steps| - 1])
  }

  /** The registry gave this answer for this name before position n of the log. */
  ghost predicate Replied<Info(!new)>(log: seq<Event<Info>>, n: nat, name: string, info: Info) {
    exists i :: 0 <= i < n && i < |log| && log[i] == Reply(name, info)
  }

  /** Such an answer was stored for this name, at or after the given time, before position n of the log. */
  ghost predicate StoredSince<Info(!new)>(log: seq<Event<Info>>, n: nat, name: string, info: Info, since: int) {
    exists j, t :: 0 <= j < n && j < |log| && log[j] == Store(name, info, t)
                   && since <= t && Replied(log, j, name, info)
  }

  ghost predicate Backed<Info(!new)>(ttl: nat, s: System<Info>, name: string, e: Entry<Info>) {
    StoredSince(s.log, |s.log|, name, e.info, e.expiry - ttl)
  }

  ghost predicate TaskOk<Info(!new)>(ttl: nat, s: System<Info>, t: Task<Info>) {
    match t
    case Looked(name, entry) => entry.Some? ==> Backed(ttl, s, name, entry.value)
    case Answered(name, info) => Replied(s.log, |s.log|, name, info)
    case Stamped(name, stamp) => Replied(s.log, |s.log|, name, stamp.info) && stamp.expiry <= s.clock + ttl
    case _ => true
  }

  ghost predicate HitOk<Info(!new)>(ttl: nat, log: seq<Event<Info>>, n: nat) {
    n < |log| && log[n].Hit? ==> StoredSince(log, n, log[n].name, log[n].info, log[n].at - ttl)
  }

  ghost predicate Inv<Info(!new)>(ttl: nat, s: System<Info>) {
    (forall name :: name in s.data ==> Backed(ttl, s, name, s.data[name])) &&
    (forall id :: id in s.tasks ==> TaskOk(ttl, s, s.tasks[id])) &&
    (forall n :: 0 <= n < |s.log| ==> HitOk(ttl, s.log, n))
  }

  lemma RepliedGrows<Info(!new)>(log: seq<Event<Info>>, e: Event<Info>, n: nat, m: nat, name: string, info: Info)
    requires n <= m && n <= |log| && Replied(log, n, name, info)
    ensures Replied(log + [e], m, name, info)
  {
    var i :| 0 <= i < n && i < |log| && log[i] == Reply(name, info);
    assert (log + [e])[i] == log[i];
  }

  lemma StoredGrows<Info(!new)>(log: seq<Event<Info>>, e: Event<Info>, n: nat, m: nat, name: string, info: Info,
                                since: int, since': int)
    requires n <= m && n <= |log| && since' <= since && StoredSince(log, n, name, info, since)
    ensures StoredSince(log + [e], m, name, info, since')
  {
    var j, t :| 0 <= j < n && j < |log| && log[j] == Store(name, info, t) && since <= t && Replied(log, j, name, info);
    assert (log + [e])[j] == log[j];
    RepliedGrows(log, e, j, j, name, info);
  }

  lemma TaskGrows<Info(!new)>(ttl: nat, s: System<Info>, e: Event<Info>, t: Task<Info>)
    requires TaskOk(ttl, s, t)
    ensures TaskOk(ttl, s.(log := s.log + [e]), t)
  {
    hide StoredSince, Replied;
    var n := |s.log|;
    match t
    case Looked(name, entry) =>
      if entry.Some? {
        var since := entry.value.expiry - ttl;
        StoredGrows(s.log, e, n, n + 1, name, entry.value.info, since, since);
      }
    case Answered(name, info) => RepliedGrows(s.log, e, n, n + 1, name, info);
    case Stamped(name, stamp) => RepliedGrows(s.log, e, n, n + 1, name, stamp.info);
    case _ =>
  }

  lemma HitGrows<Info(!new)>(ttl: nat, log: seq<Event<Info>>, e: Event<Info>, n: nat)
    requires n <= |log| && (n < |log| ==> HitOk(ttl, log, n))
    requires e.Hit? ==> StoredSince(log, |log|, e.name, e.info, e.at - ttl)
    ensures HitOk(ttl, log + [e], n)
  {
    hide StoredSince;
    var h := (log + [e])[n];
    if h.Hit? {
      assert n < |log| ==> h == log[n];
      StoredGrows(log, e, n, n, h.name, h.info, h.at - ttl, h.at - ttl);
    }
  }

  /** One more event disturbs nothing that was known. */
  lemma LogGrows<Info(!new)>(ttl: nat, s: System<Info>, e: Event<Info>)
    requires Inv(ttl, s)
    requires e.Hit? ==> StoredSince(s.log, |s.log|, e.name, e.info, e.at - ttl)
    ensures Inv(ttl, s.(log := s.log + [e]))
  {
    hide StoredSince, Replied;
    var s' := s.(log := s.log + [e]);
    forall name | name in s'.data
      ensures Backed(ttl, s', name, s'.data[name])
    {
      var since := s.data[name].expiry - ttl;
      StoredGrows(s.log, e, |s.log|, |s'.log|, name, s.data[name].info, since, since);
    }
    forall id | id in s'.tasks
      ensures TaskOk(ttl, s', s'.tasks[id])
    {
      TaskGrows(ttl, s, e, s.tasks[id]);
    }
    forall n | 0 <= n < |s'.log|
      ensures HitOk(ttl, s'.log, n)
    {
      HitGrows(ttl, s.log, e, n);
    }
  }

  lemma PutKeepsInv<Info(!new)>(ttl: nat, s: System<Info>, id: nat, t: Task<Info>)
    requires Inv(ttl, s) && TaskOk(ttl, s, t)
    ensures Inv(ttl, Put(s, id, t))
  {
    hide StoredSince, Replied;
  }

  lemma ReplyLogged<Info(!new)>(ttl: nat, s: System<Info>, name: string, info: Info)
    requires Inv(ttl, s)
    ensures var s' := s.(log := s.log + [Reply(name, info)]); Inv(ttl, s') && Replied(s'.log, |s'.log|, name, info)
  {
    LogGrows(ttl, s, Reply(name, info));
    assert (s.log + [Reply(name, info)])[|s.log|] == Reply(name, info);
    hide Inv;
  }

  lemma StoreLogged<Info(!new)>(ttl: nat, s: System<Info>, name: string, stamp: Entry<Info>)
    requires Inv(ttl, s) && Replied(s.log, |s.log|, name, stamp.info) && stamp.expiry <= s.clock + ttl
    ensures var s' := s.(log := s.log + [Store(name, stamp.info, s.clock)]);
            Inv(ttl, s') && Backed(ttl, s', name, stamp)
  {
    var e := Store(name, stamp.info, s.clock);
    LogGrows(ttl, s, e);
    RepliedGrows(s.log, e, |s.log|, |s.log|, name, stamp.info);
    assert (s.log + [e])[|s.log|] == e;
    hide Inv, Replied;
  }

  lemma DataKeepsInv<Info(!new)>(ttl: nat, s: System<Info>, name: string, e: Entry<Info>)
    requires Inv(ttl, s) && Backed(ttl, s, name, e)
    ensures Inv(ttl, s.(data := s.data[name := e]))
  {
    hide StoredSince, Replied;
  }

  lemma StoredSinceEarlier<Info(!new)>(log: seq<Event<Info>>, n: nat, name: string, info: Info, since: int, since': int)
    requires since' <= since && StoredSince(log, n, name, info, since)
    ensures StoredSince(log, n, name, info, since')
  {}

  lemma HitLogged<Info(!new)>(ttl: nat, s: System<Info>, name: string, e: Entry<Info>)
    requires Inv(ttl, s) && Backed(ttl, s, name, e) && s.clock <= e.expiry
    ensures Inv(ttl, s.(log := s.log + [Hit(name, e.info, s.clock)]))
  {
    StoredSinceEarlier(s.log, |s.log|, name, e.info, e.expiry - ttl, s.clock - ttl);
    hide StoredSince, Replied, Inv;
    LogGrows(ttl, s, Hit(name, e.info, s.clock));
  }

  lemma TableBacked<Info(!new)>(ttl: nat, s: System<Info>)
    requires Inv(ttl, s)
    ensures forall name :: name in s.data ==> Backed(ttl, s, name, s.data[name])
  {}

  lemma MoveKeepsInv<Info(!new)>(ttl: nat, s: System<Info>, id: nat, answer: Option<Info>)
    requires Inv(ttl, s) && id in s.tasks
    ensures Inv(ttl, Move(ttl, s, id, answer))
  {
    assert TaskOk(ttl, s, s.tasks[id]);
    TableBacked(ttl, s);
    hide Inv, StoredSince, Replied;
    match s.tasks[id]
    case Started(name) => PutKeepsInv(ttl, s, id, Looked(name, if name in s.data then Some(s.data[name]) else None));
    case Looked(name, entry) =>
      if entry.Some? && s.clock <= entry.value.expiry {
        HitLogged(ttl, s, name, entry.value);
        PutKeepsInv(ttl, s.(log := s.log + [Hit(name, entry.value.info, s.clock)]), id, Finished);
      } else {
        PutKeepsInv(ttl, s, id, Asking(name));
      }
    case Asking(name) =>
      if answer.Some? {
        ReplyLogged(ttl, s, name, answer.value);
        PutKeepsInv(ttl, s.(log := s.log + [Reply(name, answer.value)]), id, Answered(name, answer.value));
      } else {
        PutKeepsInv(ttl, s, id, Finished);
      }
    case Answered(name, info) => PutKeepsInv(ttl, s, id, Stamped(name, Entry(info, s.clock + ttl)));
    case Stamped(name, stamp) =>
      var s' := s.(log := s.log + [Store(name, stamp.info, s.clock)]);
      StoreLogged(ttl, s, name, stamp);
      DataKeepsInv(ttl, s', name, stamp);
      PutKeepsInv(ttl, s'.(data := s'.data[name := stamp]), id, Finished);
    case Finished =>
  }

  lemma DoKeepsInv<Info(!new)>(ttl: nat, s: System<Info>, step: Step<Info>)
    requires Inv(ttl, s)
    ensures Inv(ttl, Do(ttl, s, step))
  {
    hide StoredSince, Replied, Move;
    if step.Advance? && step.task in s.tasks { MoveKeepsInv(ttl, s, step.task, step.answer); }
  }

  lemma InitInv<Info(!new)>(ttl: nat)
    ensures Inv(ttl, Fresh<Info>())
  {}

  lemma {:induction false} Reachable<Info(!new)>(ttl: nat, steps: seq<Step<Info>>)
    ensures Inv(ttl, After(ttl, steps))
  {
    hide StoredSince, Replied, Do, Inv;
    if steps == [] {
      InitInv<Info>(ttl);
    } else {
      Reachable(ttl, steps[..|steps| - 1]);
      DoKeepsInv(ttl, After(ttl, steps[..|steps| - 1]), steps[|steps| - 1]);
    }
  }

  /**
   * However lookups, insertions and deletions interleave, what the cache returns at a time was stored
   * for that very name no longer ago than the time to live, after the registry had answered it.
   */
  lemma StalenessBound<Info(!new)>(ttl: nat, steps: seq<Step<Info>>, n: nat)
    requires var log := After(ttl, steps).log; n < |log| && log[n].Hit?
    ensures var log := After(ttl, steps).log; StoredSince(log, n, log[n].name, log[n].info, log[n].at - ttl)
  {
    hide StoredSince, Replied, After;
    Reachable(ttl, steps);
    assert HitOk(ttl, After(ttl, steps).log, n);
  }

  // --- One call with nobody between its steps ---

  /** The steps of one call: read, check, and on a miss ask, wait for the answer, stamp it and store it. */
  function Alone<Info>(ttl: nat, s: System<Info>, id: nat, name: string, answer: Option<Info>, dt: nat): System<Info> {
    var checked := Do(ttl, Do(ttl, Do(ttl, s, Call(id, name)), Advance(id, None)), Advance(id, None));
    var answered := Do(ttl, Do(ttl, checked, Advance(id, answer)), Tick(dt));
    Do(ttl, Do(ttl, answered, Advance(id, None)), Advance(id, None))
  }

  /** A call that nobody interrupts returns, and leaves in the table, what the call on its own does. */
  lemma AloneIsSequential<Info>(ttl: nat, s: System<Info>, id: nat, name: string, answer: Option<Info>, dt: nat)
    requires id !in s.tasks
    ensures var end := Alone(ttl, s, id, name, answer, dt);
            var (info, data) := Requested(s.data, ttl, name, s.clock, answer, s.clock + dt);
            && end.data == data && end.clock == s.clock + dt && end.tasks == s.tasks[id := Finished]
            && end.log == s.log +
                 if Lookup(s.data, name, s.clock).Some? then [Hit(name, info.value, s.clock)]
                 else if answer.Some? then [Reply(name, answer.value), Store(name, answer.value, s.clock + dt)]
                 else []
  {}

  /** A name that was erased is a miss at any time; other names keep their entries. */
  lemma ErasedIsMissed<Info>(ttl: nat, s: System<Info>, name: string, now: int)
    ensures var data := Do(ttl, s, Erase(name)).data;
            && Lookup(data, name, now) == None
            && forall k :: k != name ==> Lookup(data, k, now) == Lookup(s.data, k, now)
  {}
}
