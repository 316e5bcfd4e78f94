/** udpServiceProxy: one listening socket, one stream per client, one retry per datagram. */
module UdpDemux {
  import opened Common

  datatype Datagram = Datagram(from: string, payload: seq<byte>)

  /** A stream, the address its reverse forwarder writes to, and the datagrams it has carried. */
  datatype Stream = Stream(replyTo: string, sent: seq<Datagram>, alive: bool)

  datatype Accepted = Accepted(datagram: Datagram, stream: nat)

  /** What a reverse forwarder wrote to the listening socket: for whom, and from which stream. */
  datatype Reply = Reply(to: string, stream: nat, payload: seq<byte>)

  datatype Demux = Demux(
    client2Chain: map<string, nat>, streams: seq<Stream>,
    arrived: seq<Datagram>, accepted: seq<Accepted>, replies: seq<Reply>, writes: nat, running: bool)

  /**
   * What the environment answers while one datagram is handled: does setupChain succeed, does a write
   * succeed, and which streams' close callbacks run just before the write; first for the first
   * attempt, then for the retry.
   */
  datatype Env = Env(setups: (bool, bool), sends: (bool, bool), notices: (seq<nat>, seq<nat>))

  datatype Outcome = Sent(stream: nat) | GaveUp | ShutDown

  const EMPTY := Demux(map[], [], [], [], [], 0, true)

  function Remove(m: map<string, nat>, c: string): map<string, nat> {
    map k | k in m && k != c :: m[k]
  }

  /** setupChain succeeded: a new stream, known under the client's address, with its reverse forwarder. */
  function Connect(d: Demux, c: string): Demux {
    d.(streams := d.streams + [Stream(c, [], true)], client2Chain := d.client2Chain[c := |d.streams|])
  }

  /** The close callback for a stream forgets the client that uses it. */
  function Notice(d: Demux, id: nat): Demux {
    d.(client2Chain := map k | k in d.client2Chain && d.client2Chain[k] != id :: d.client2Chain[k])
  }

  function Notices(d: Demux, ids: seq<nat>): Demux {
    if ids == [] then d else Notice(Notices(d, ids[..|ids| - 1]), ids[|ids| - 1])
  }

  function Kill(d: Demux, id: nat): Demux {
    if id < |d.streams| then d.(streams := d.streams[id := d.streams[id].(alive := false)]) else d
  }

  /** One more write has been attempted. */
  function Try(d: Demux): Demux {
    d.(writes := d.writes + 1)
  }

  function CanSend(d: Demux, id: nat, ok: bool): bool {
    ok && id < |d.streams| && d.streams[id].alive
  }

  function Deliver(d: Demux, id: nat, g: Datagram): Demux
    requires id < |d.streams|
  {
    d.(streams := d.streams[id := d.streams[id].(sent := d.streams[id].sent + [g])],
       accepted := d.accepted + [Accepted(g, id)])
  }

  /** A message has come back on a stream; its reverse forwarder writes it unless it is empty. */
  function Answer(d: Demux, id: nat, payload: seq<byte>): Demux {
    if id < |d.streams| && d.streams[id].alive && payload != [] then
      d.(replies := d.replies + [Reply(d.streams[id].replyTo, id, payload)])
    else d
  }

  function Stop(d: Demux): Demux {
    d.(running := false)
  }

  /** The first write failed: set the chain up again and write once more. */
  function Retry(d: Demux, g: Datagram, env: Env): (Demux, Outcome) {
    if !env.setups.1 then (Stop(d), ShutDown)
    else
      var id := |d.streams|;
      var e := Try(Notices(Connect(d, g.from), env.notices.1));
      if CanSend(e, id, env.sends.1) then (Deliver(e, id, g), Sent(id))
      else
        var k := Kill(e, id);
        (k.(client2Chain := Remove(k.client2Chain, g.from)), GaveUp)
  }

  function WriteTo(d: Demux, g: Datagram, id: nat, env: Env): (Demux, Outcome) {
    var e := Try(Notices(d, env.notices.0));
    if CanSend(e, id, env.sends.0) then (Deliver(e, id, g), Sent(id)) else Retry(Kill(e, id), g, env)
  }

  /** One datagram from the listening socket. */
  function Handle(d: Demux, g: Datagram, env: Env): (Demux, Outcome) {
    var a := d.(arrived := d.arrived + [g]);
    if g.from in a.client2Chain then WriteTo(a, g, a.client2Chain[g.from], env)
    else if !env.setups.0 then (Stop(a), ShutDown)
    else WriteTo(Connect(a, g.from), g, |a.streams|, env)
  }

  lemma {:induction false} NoticesKeepStreams(d: Demux, ids: seq<nat>)
    ensures var e := Notices(d, ids); e == d.(client2Chain := e.client2Chain)
    ensures forall c :: c in Notices(d, ids).client2Chain ==>
              c in d.client2Chain && Notices(d, ids).client2Chain[c] == d.client2Chain[c]
  {
    if ids != [] { NoticesKeepStreams(d, ids[..|ids| - 1]); }
  }

  class UdpServiceProxy {
    var client2Chain: map<string, nat>
    var streams: seq<Stream>
    ghost var arrived: seq<Datagram>
    ghost var accepted: seq<Accepted>
    ghost var replies: seq<Reply>
    ghost var writes: nat
    var running: bool

    ghost function State(): Demux
      reads this
    {
      Demux(client2Chain, streams, arrived, accepted, replies, writes, running)
    }

    constructor ()
      ensures State() == EMPTY
    {
      client2Chain, streams, arrived, accepted, replies, writes, running := map[], [], [], [], [], 0, true;
    }

    method ConnectClient(c: string) returns (id: nat)
      modifies this
      ensures State() == Connect(old(State()), c) && id == old(|streams|)
    {
      id := |streams|;
      streams := streams + [Stream(c, [], true)];
      client2Chain := client2Chain[c := id];
    }

    method RunNotices(ids: seq<nat>)
      modifies this
      ensures State() == Notices(old(State()), ids)
    {
      for k := 0 to |ids|
        invariant State() == Notices(old(State()), ids[..k])
      {
        assert ids[..k + 1][..k] == ids[..k];
        client2Chain := map c | c in client2Chain && client2Chain[c] != ids[k] :: client2Chain[c];
      }
      assert ids[..|ids|] == ids;
    }

    method SendData(id: nat, g: Datagram, ok: bool) returns (sent: bool)
      requires id < |streams|
      modifies this
      ensures sent == CanSend(Try(old(State())), id, ok)
      ensures State() == if sent then Deliver(Try(old(State())), id, g) else Try(old(State()))
    {
      writes := writes + 1;
      sent := ok && streams[id].alive;
      if sent {
        streams := streams[id := streams[id].(sent := streams[id].sent + [g])];
        accepted := accepted + [Accepted(g, id)];
      }
    }

    method ResetStream(id: nat)
      requires id < |streams|
      modifies this
      ensures State() == Kill(old(State()), id)
    {
      streams := streams[id := streams[id].(alive := false)];
    }

    /** One message in the reverse forwarder of a stream, which was given its client's address at the start. */
    method ForwardReply(id: nat, payload: seq<byte>)
      requires id < |streams|
      modifies this`replies
      ensures State() == Answer(old(State()), id, payload)
    {
      if streams[id].alive && |payload| > 0 {
        replies := replies + [Reply(streams[id].replyTo, id, payload)];
      }
    }

    /** The body of the receive loop, retry included. */
    method HandleDatagram(g: Datagram, env: Env) returns (outcome: Outcome)
      requires forall c :: c in client2Chain ==> client2Chain[c] < |streams|
      modifies this
      ensures (State(), outcome) == Handle(old(State()), g, env)
    {
      hide Notices, Deliver, CanSend, Remove;
      arrived := arrived + [g];
      var dstComm;
      if g.from in client2Chain {
        dstComm := client2Chain[g.from];
      } else {
        if !env.setups.0 {
          running := false;
          return ShutDown;
        }
        dstComm := ConnectClient(g.from);
      }
      ghost var first, firstComm := State(), dstComm;
      var writeRetry := false;
      while true
        invariant dstComm < |streams|
        invariant !writeRetry ==> State() == first && dstComm == firstComm
        invariant writeRetry ==>
                    var noticed := Try(Notices(first, env.notices.0));
                    var failed := Kill(noticed, firstComm);
                    env.setups.1 && !CanSend(noticed, firstComm, env.sends.0) &&
                    dstComm == |failed.streams| && State() == Connect(failed, g.from)
        decreases !writeRetry
      {
        NoticesKeepStreams(State(), if writeRetry then env.notices.1 else env.notices.0);
        RunNotices(if writeRetry then env.notices.1 else env.notices.0);
        var sent := SendData(dstComm, g, if writeRetry then env.sends.1 else env.sends.0);
        if sent {
          return Sent(dstComm);
        }
        ResetStream(dstComm);
        if writeRetry {
          client2Chain := Remove(client2Chain, g.from);
          return GaveUp;
        }
        if !env.setups.1 {
          running := false;
          return ShutDown;
        }
        dstComm := ConnectClient(g.from);
        writeRetry := true;
      }
    }
  }

  // --- Isolation ---

  function OnStream(id: nat): Accepted -> Option<Datagram> {
    (a: Accepted) => if a.stream == id then Some(a.datagram) else None
  }

  function DatagramOf(a: Accepted): Option<Datagram> {
    Some(a.datagram)
  }

  predicate Subsequence(a: seq<Datagram>, b: seq<Datagram>) {
    if a == [] then true
    else if b == [] then false
    else (a[|a| - 1] == b[|b| - 1] && Subsequence(a[..|a| - 1], b[..|b| - 1])) || Subsequence(a, b[..|b| - 1])
  }

  ghost predicate Isolated(d: Demux) {
    (forall c :: c in d.client2Chain ==>
       d.client2Chain[c] < |d.streams| && d.streams[d.client2Chain[c]].replyTo == c) &&
    (forall id, g :: 0 <= id < |d.streams| && g in d.streams[id].sent ==> g.from == d.streams[id].replyTo) &&
    (forall r :: r in d.replies ==> r.stream < |d.streams| && d.streams[r.stream].replyTo == r.to)
  }

  /** Every stream carries exactly what was accepted on it, and acceptances follow the arrivals. */
  ghost predicate Ordered(d: Demux) {
    (forall a :: a in d.accepted ==> a.stream < |d.streams|) &&
    (forall id :: 0 <= id < |d.streams| ==> d.streams[id].sent == FilterMap(OnStream(id), d.accepted)) &&
    Subsequence(FilterMap(DatagramOf, d.accepted), d.arrived)
  }

  /** As Ordered, while the last arrival is still being handled. */
  ghost predicate Handling(d: Demux, g: Datagram) {
    d.arrived != [] && d.arrived[|d.arrived| - 1] == g && Isolated(d) &&
    Ordered(d.(arrived := d.arrived[..|d.arrived| - 1]))
  }

  ghost predicate Inv(d: Demux) {
    Isolated(d) && Ordered(d)
  }

  lemma HandlingDone(d: Demux, g: Datagram)
    requires Handling(d, g)
    ensures Inv(d)
  {
    hide FilterMap, OnStream, DatagramOf;
  }

  lemma ConnectIsolated(d: Demux, c: string)
    requires Isolated(d)
    ensures Isolated(Connect(d, c))
  {
    var e := Connect(d, c);
    assert forall id :: 0 <= id < |d.streams| ==> e.streams[id] == d.streams[id];
  }

  lemma ConnectOrdered(d: Demux, c: string)
    requires Ordered(d)
    ensures Ordered(Connect(d, c))
  {
    FilterMapNothing(OnStream(|d.streams|), d.accepted);
    hide FilterMap, OnStream, DatagramOf, Subsequence;
    var e := Connect(d, c);
    forall id | 0 <= id < |e.streams|
      ensures e.streams[id].sent == FilterMap(OnStream(id), e.accepted)
    {
      assert id < |d.streams| ==> e.streams[id] == d.streams[id];
    }
  }

  lemma ConnectHandling(d: Demux, g: Datagram, c: string)
    requires Handling(d, g)
    ensures Handling(Connect(d, c), g)
  {
    hide Isolated, Ordered;
    var before := d.(arrived := d.arrived[..|d.arrived| - 1]);
    ConnectIsolated(d, c);
    ConnectOrdered(before, c);
    assert Connect(before, c) == Connect(d, c).(arrived := before.arrived);
  }

  lemma NoticesHandling(d: Demux, g: Datagram, ids: seq<nat>)
    requires Handling(d, g)
    ensures Handling(Notices(d, ids), g)
  {
    hide FilterMap, OnStream, DatagramOf, Subsequence, Notices;
    NoticesKeepStreams(d, ids);
  }

  lemma TryHandling(d: Demux, g: Datagram)
    requires Handling(d, g)
    ensures Handling(Try(d), g)
  {}

  lemma KillHandling(d: Demux, g: Datagram, id: nat)
    requires Handling(d, g)
    ensures Handling(Kill(d, id), g)
  {
    hide FilterMap, OnStream, DatagramOf, Subsequence;
  }

  lemma DeliverIsolated(d: Demux, g: Datagram, id: nat)
    requires Handling(d, g) && id < |d.streams| && d.streams[id].replyTo == g.from
    ensures Isolated(Deliver(d, id, g))
  {
    hide FilterMap, OnStream, DatagramOf, Subsequence, Ordered;
  }

  lemma OneAccepted(f: Accepted -> Option<Datagram>, a: Accepted)
    ensures FilterMap(f, [a]) == One(f(a))
  {}

  lemma DeliverOrdered(d: Demux, g: Datagram, id: nat)
    requires Handling(d, g) && id < |d.streams|
    ensures Ordered(Deliver(d, id, g))
  {
    var a := Accepted(g, id);
    forall k | 0 <= k < |d.streams|
      ensures FilterMap(OnStream(k), d.accepted + [a])
           == FilterMap(OnStream(k), d.accepted) + if k == id then [g] else []
    {
      FilterMapConcat(OnStream(k), d.accepted, [a]);
      OneAccepted(OnStream(k), a);
    }
    FilterMapConcat(DatagramOf, d.accepted, [a]);
    OneAccepted(DatagramOf, a);
    hide FilterMap, Isolated;
    var before := FilterMap(DatagramOf, d.accepted);
    assert (before + [g])[..|before|] == before;
  }

  lemma DeliverKeepsInv(d: Demux, g: Datagram, id: nat)
    requires Handling(d, g) && id < |d.streams| && d.streams[id].replyTo == g.from
    ensures Inv(Deliver(d, id, g))
  {
    DeliverIsolated(d, g, id);
    DeliverOrdered(d, g, id);
  }

  lemma ForgetKeepsInv(d: Demux, c: string)
    requires Inv(d)
    ensures Inv(d.(client2Chain := Remove(d.client2Chain, c)))
  {}

  lemma StopKeepsInv(d: Demux)
    requires Inv(d)
    ensures Inv(Stop(d))
  {}

  lemma RetryKeepsInv(d: Demux, g: Datagram, env: Env)
    requires Handling(d, g)
    ensures Inv(Retry(d, g, env).0)
  {
    hide FilterMap, OnStream, DatagramOf, Subsequence, Ordered, Notices, Deliver;
    ConnectHandling(d, g, g.from);
    NoticesHandling(Connect(d, g.from), g, env.notices.1);
    NoticesKeepStreams(Connect(d, g.from), env.notices.1);
    var id, e := |d.streams|, Try(Notices(Connect(d, g.from), env.notices.1));
    TryHandling(Notices(Connect(d, g.from), env.notices.1), g);
    if CanSend(e, id, env.sends.1) {
      DeliverKeepsInv(e, g, id);
    } else {
      KillHandling(e, g, id);
      HandlingDone(Kill(e, id), g);
      ForgetKeepsInv(Kill(e, id), g.from);
    }
    HandlingDone(d, g);
    StopKeepsInv(d);
  }

  lemma WriteToKeepsInv(d: Demux, g: Datagram, id: nat, env: Env)
    requires Handling(d, g) && id < |d.streams| && d.streams[id].replyTo == g.from
    ensures Inv(WriteTo(d, g, id, env).0)
  {
    hide FilterMap, OnStream, DatagramOf, Subsequence, Ordered, Notices, Deliver, Retry, Isolated;
    NoticesHandling(d, g, env.notices.0);
    NoticesKeepStreams(d, env.notices.0);
    var e := Try(Notices(d, env.notices.0));
    TryHandling(Notices(d, env.notices.0), g);
    if CanSend(e, id, env.sends.0) {
      DeliverKeepsInv(e, g, id);
    } else {
      KillHandling(e, g, id);
      RetryKeepsInv(Kill(e, id), g, env);
    }
  }

  lemma HandleKeepsInv(d: Demux, g: Datagram, env: Env)
    requires Inv(d)
    ensures Inv(Handle(d, g, env).0)
  {
    hide FilterMap, OnStream, DatagramOf, Subsequence, WriteTo;
    var a := d.(arrived := d.arrived + [g]);
    assert a.arrived[..|a.arrived| - 1] == d.arrived;
    assert a.(arrived := d.arrived) == d;
    assert Handling(a, g);
    if g.from in a.client2Chain {
      WriteToKeepsInv(a, g, a.client2Chain[g.from], env);
    } else if env.setups.0 {
      ConnectHandling(a, g, g.from);
      WriteToKeepsInv(Connect(a, g.from), g, |a.streams|, env);
    } else {
      HandlingDone(a, g);
      StopKeepsInv(a);
    }
  }

  /**
   * Between datagrams a message may come back on a stream, or the stream may close; the callback
   * forgets its client, or never comes.
   */
  datatype Event =
    | Arrive(datagram: Datagram, env: Env)
    | Back(id: nat, payload: seq<byte>)
    | Close(id: nat, noticed: bool)

  function OnEvent(d: Demux, e: Event): Demux {
    if !d.running then d
    else match e
      case Arrive(g, env) => Handle(d, g, env).0
      case Back(id, payload) => Answer(d, id, payload)
      case Close(id, noticed) => if noticed then Notice(Kill(d, id), id) else Kill(d, id)
  }

  function After(events: seq<Event>): Demux {
    if events == [] then EMPTY else OnEvent(After(events[..|events| - 1]), events[|events| - 1])
  }

  lemma CloseKeepsInv(d: Demux, id: nat, noticed: bool)
    requires Inv(d)
    ensures Inv(OnEvent(d, Close(id, noticed)))
  {
    hide FilterMap, OnStream, DatagramOf, Subsequence;
  }

  lemma AnswerKeepsInv(d: Demux, id: nat, payload: seq<byte>)
    requires Inv(d)
    ensures Inv(OnEvent(d, Back(id, payload)))
  {
    hide FilterMap, OnStream, DatagramOf, Subsequence;
  }

  lemma ArriveKeepsInv(d: Demux, g: Datagram, env: Env)
    requires Inv(d)
    ensures Inv(OnEvent(d, Arrive(g, env)))
  {
    hide Handle, Inv;
    HandleKeepsInv(d, g, env);
  }

  lemma EmptyInv()
    ensures Inv(EMPTY)
  {}

  lemma {:induction false} Reachable(events: seq<Event>)
    ensures Inv(After(events))
  {
    hide Handle, Inv, OnEvent;
    if events == [] {
      EmptyInv();
    } else {
      var d, e := After(events[..|events| - 1]), events[|events| - 1];
      Reachable(events[..|events| - 1]);
      match e
      case Arrive(g, env) => ArriveKeepsInv(d, g, env);
      case Back(id, payload) => AnswerKeepsInv(d, id, payload);
      case Close(id, noticed) => CloseKeepsInv(d, id, noticed);
    }
  }

  /**
   * Clients never share a stream; a stream carries only its own client's datagrams, and whatever comes
   * back to a client comes from a stream that never carries anybody else's.
   */
  lemma ClientsIsolated(events: seq<Event>)
    ensures var d := After(events);
            && (forall a, b :: a in d.client2Chain && b in d.client2Chain && d.client2Chain[a] == d.client2Chain[b]
                  ==> a == b)
            && (forall c :: c in d.client2Chain ==>
                  d.client2Chain[c] < |d.streams| && d.streams[d.client2Chain[c]].replyTo == c)
            && (forall id, g :: 0 <= id < |d.streams| && g in d.streams[id].sent ==> g.from == d.streams[id].replyTo)
            && (forall r :: r in d.replies ==>
                  r.stream < |d.streams| && forall g :: g in d.streams[r.stream].sent ==> g.from == r.to)
            && (forall r, q :: r in d.replies && q in d.replies && r.stream == q.stream ==> r.to == q.to)
  {
    hide After, Ordered;
    Reachable(events);
  }

  function FromClient(c: string): Datagram -> Option<Datagram> {
    (g: Datagram) => if g.from == c then Some(g) else None
  }

  lemma FilterMapLast(f: Datagram -> Option<Datagram>, s: seq<Datagram>, x: Datagram)
    ensures FilterMap(f, s + [x]) == if f(x).Some? then FilterMap(f, s) + [f(x).value] else FilterMap(f, s)
  {
    FilterMapConcat(f, s, [x]);
    assert FilterMap(f, [x]) == One(f(x));
  }

  lemma SubsequenceBoth(a: seq<Datagram>, b: seq<Datagram>, x: Datagram)
    requires Subsequence(a, b)
    ensures Subsequence(a + [x], b + [x])
  {
    assert (a + [x])[..|a|] == a && (b + [x])[..|b|] == b;
  }

  lemma SubsequenceRight(a: seq<Datagram>, b: seq<Datagram>, x: Datagram)
    requires Subsequence(a, b)
    ensures Subsequence(a, b + [x])
  {
    assert (b + [x])[..|b|] == b;
  }

  lemma {:induction false} SubsequenceFiltered(f: Datagram -> Option<Datagram>, a: seq<Datagram>, b: seq<Datagram>)
    requires Subsequence(a, b)
    ensures Subsequence(FilterMap(f, a), FilterMap(f, b))
    decreases |b|
  {
    if a != [] {
      var a', b', x, y := a[..|a| - 1], b[..|b| - 1], a[|a| - 1], b[|b| - 1];
      assert a == a' + [x] && b == b' + [y];
      FilterMapLast(f, a', x);
      FilterMapLast(f, b', y);
      if x == y && Subsequence(a', b') {
        SubsequenceFiltered(f, a', b');
        if f(x).Some? { SubsequenceBoth(FilterMap(f, a'), FilterMap(f, b'), f(x).value); }
      } else {
        SubsequenceFiltered(f, a, b');
        if f(y).Some? { SubsequenceRight(FilterMap(f, a), FilterMap(f, b'), f(y).value); }
      }
    }
  }

  /** Each client's accepted datagrams are among its arrivals, at most once each and in order. */
  lemma AcceptedInOrder(events: seq<Event>, c: string)
    ensures var d := After(events);
            && Subsequence(FilterMap(FromClient(c), FilterMap(DatagramOf, d.accepted)),
                           FilterMap(FromClient(c), d.arrived))
            && forall id :: 0 <= id < |d.streams| ==> d.streams[id].sent == FilterMap(OnStream(id), d.accepted)
  {
    hide After, FilterMap, Subsequence, Isolated;
    Reachable(events);
    var d := After(events);
    SubsequenceFiltered(FromClient(c), FilterMap(DatagramOf, d.accepted), d.arrived);
  }

  /** Which stream a datagram is first written to, and the state just before that write. */
  function FirstTarget(d: Demux, g: Datagram): (Demux, nat) {
    var a := d.(arrived := d.arrived + [g]);
    if g.from in a.client2Chain then (a, a.client2Chain[g.from]) else (Connect(a, g.from), |a.streams|)
  }

  /** What writing g, after `writes` writes so far, may lead to. */
  ghost predicate Settled(d: Demux, g: Datagram, writes: nat, e: Demux, outcome: Outcome) {
    && e.arrived == d.arrived && e.replies == d.replies
    && e.writes <= d.writes + writes && |e.streams| <= |d.streams| + 1
    && (outcome.Sent? ==>
         && e.accepted == d.accepted + [Accepted(g, outcome.stream)] && e.running == d.running
         && outcome.stream < |e.streams| && e.streams[outcome.stream].replyTo == g.from)
    && (!outcome.Sent? ==> e.accepted == d.accepted)
    && (outcome.GaveUp? ==> g.from !in e.client2Chain && e.running == d.running)
    && (outcome.ShutDown? ==> !e.running)
  }

  lemma RetrySettles(d: Demux, g: Datagram, env: Env)
    ensures Settled(d, g, 1, Retry(d, g, env).0, Retry(d, g, env).1)
  {
    NoticesKeepStreams(Connect(d, g.from), env.notices.1);
    hide Notices;
  }

  lemma WriteToSettles(d: Demux, g: Datagram, id: nat, env: Env)
    requires id < |d.streams| && d.streams[id].replyTo == g.from
    ensures Settled(d, g, 2, WriteTo(d, g, id, env).0, WriteTo(d, g, id, env).1)
  {
    NoticesKeepStreams(d, env.notices.0);
    RetrySettles(Kill(Try(Notices(d, env.notices.0)), id), g, env);
    hide Notices, Retry;
  }

  /**
   * One datagram: it is written at most twice and accepted at most once, on a stream that answers its
   * sender; a datagram given up leaves its sender out of the map.
   */
  lemma OneDatagram(d: Demux, g: Datagram, env: Env)
    requires Isolated(d)
    ensures var (e, outcome) := Handle(d, g, env);
            && e.arrived == d.arrived + [g]
            && e.writes <= d.writes + 2 && |e.streams| <= |d.streams| + 2
            && (outcome.Sent? ==>
                 && e.accepted == d.accepted + [Accepted(g, outcome.stream)] && e.running == d.running
                 && outcome.stream < |e.streams| && e.streams[outcome.stream].replyTo == g.from)
            && (!outcome.Sent? ==> e.accepted == d.accepted)
            && (outcome.GaveUp? ==> g.from !in e.client2Chain && e.running == d.running)
            && (outcome.ShutDown? ==> !e.running)
            && e.replies == d.replies
  {
    var (start, id) := FirstTarget(d, g);
    WriteToSettles(start, g, id, env);
    hide WriteTo;
  }

  /** The callbacks forget exactly the clients whose streams they are called for. */
  lemma {:induction false} NoticesForget(d: Demux, ids: seq<nat>, c: string)
    ensures c in Notices(d, ids).client2Chain <==> c in d.client2Chain && d.client2Chain[c] !in ids
  {
    if ids != [] {
      var rest, last := ids[..|ids| - 1], ids[|ids| - 1];
      NoticesForget(d, rest, c);
      NoticesKeepStreams(d, rest);
      assert ids == rest + [last];
    }
  }

  /**
   * A datagram that was not accepted leaves its sender out of the map, except in one case: there was a
   * stream to write to, the write failed, setting the chain up again failed too, which also ends the
   * proxy, and no close callback for that stream had come before the write.
   */
  lemma SentOrForgotten(d: Demux, g: Datagram, env: Env)
    requires Isolated(d)
    ensures var (e, outcome) := Handle(d, g, env);
            var (start, id) := FirstTarget(d, g);
            (outcome.Sent? || g.from !in e.client2Chain) <==>
              !((g.from in d.client2Chain || env.setups.0) && !CanSend(start, id, env.sends.0)
                && !env.setups.1 && id !in env.notices.0)
  {
    var (start, id) := FirstTarget(d, g);
    NoticesForget(start, env.notices.0, g.from);
    NoticesKeepStreams(start, env.notices.0);
    hide Notices, Isolated;
  }

  // --- Exactly what one datagram does, told on the inputs ---

  /** The sender has a stream, or one can be set up. */
  predicate HasStream(d: Demux, g: Datagram, env: Env) {
    g.from in d.client2Chain || env.setups.0
  }

  /** The stream first written to, when there is one. */
  function FirstStream(d: Demux, g: Datagram): nat {
    if g.from in d.client2Chain then d.client2Chain[g.from] else |d.streams|
  }

  /** The first write succeeds: on a live stream of the sender, or on the one just set up. */
  predicate FirstWriteSucceeds(d: Demux, g: Datagram, env: Env) {
    env.sends.0 &&
    if g.from in d.client2Chain then FirstStream(d, g) < |d.streams| && d.streams[FirstStream(d, g)].alive
    else env.setups.0
  }

  /** The first write failed and the chain was set up again. */
  predicate SetUpAgain(d: Demux, g: Datagram, env: Env) {
    HasStream(d, g, env) && !FirstWriteSucceeds(d, g, env) && env.setups.1
  }

  lemma BothNotices(d: Demux, g: Datagram, env: Env)
    ensures var (start, id) := FirstTarget(d, g);
            var e := Kill(Try(Notices(start, env.notices.0)), id);
            && Notices(start, env.notices.0) == start.(client2Chain := Notices(start, env.notices.0).client2Chain)
            && Notices(Connect(e, g.from), env.notices.1)
                 == Connect(e, g.from).(client2Chain := Notices(Connect(e, g.from), env.notices.1).client2Chain)
  {
    var (start, id) := FirstTarget(d, g);
    NoticesKeepStreams(start, env.notices.0);
    NoticesKeepStreams(Connect(Kill(Try(Notices(start, env.notices.0)), id), g.from), env.notices.1);
  }

  /** When a datagram is accepted, when it is given up, and how often it is written. */
  lemma SentExactly(d: Demux, g: Datagram, env: Env)
    requires Isolated(d)
    ensures var (e, outcome) := Handle(d, g, env);
            && (outcome.Sent? <==> FirstWriteSucceeds(d, g, env) || (SetUpAgain(d, g, env) && env.sends.1))
            && (outcome.GaveUp? <==> SetUpAgain(d, g, env) && !env.sends.1)
            && e.writes == d.writes + (if HasStream(d, g, env) then 1 else 0) + (if SetUpAgain(d, g, env) then 1 else 0)
            && (e.running <==> d.running && !outcome.ShutDown?)
  {
    BothNotices(d, g, env);
    hide Notices, Isolated;
  }

  lemma StreamCount(d: Demux, g: Datagram, env: Env)
    requires Isolated(d)
    ensures var (e, outcome) := Handle(d, g, env);
            && |e.streams| == |d.streams| + (if g.from !in d.client2Chain && env.setups.0 then 1 else 0)
                                          + (if SetUpAgain(d, g, env) then 1 else 0)
            && (outcome.Sent? ==>
                  outcome.stream == if SetUpAgain(d, g, env) then |e.streams| - 1 else FirstStream(d, g))
  {
    BothNotices(d, g, env);
    hide Notices, Isolated;
  }

  /** The stream that was there, or the one newly set up for g's sender. */
  function StreamBefore(d: Demux, g: Datagram, id: nat): Stream {
    if id < |d.streams| then d.streams[id] else Stream(g.from, [], true)
  }

  function Carrying(s: Stream, g: Datagram, accepted: bool, failed: bool): Stream {
    Stream(s.replyTo, if accepted then s.sent + [g] else s.sent, s.alive && !failed)
  }

  lemma RetryStreams(d: Demux, g: Datagram, env: Env, id: nat)
    requires id < |Retry(d, g, env).0.streams|
    ensures var (e, outcome) := Retry(d, g, env);
            e.streams[id] == Carrying(StreamBefore(d, g, id), g, outcome == Sent(id),
                                      outcome.GaveUp? && id == |d.streams|)
    ensures |Retry(d, g, env).0.streams| == |d.streams| + if env.setups.1 then 1 else 0
  {
    NoticesKeepStreams(Connect(d, g.from), env.notices.1);
    hide Notices;
  }

  lemma WriteToStreams(d: Demux, g: Datagram, first: nat, env: Env, id: nat)
    requires first < |d.streams| && id < |WriteTo(d, g, first, env).0.streams|
    ensures var (e, outcome) := WriteTo(d, g, first, env);
            var failed := !CanSend(d, first, env.sends.0);
            e.streams[id] == Carrying(StreamBefore(d, g, id), g, outcome == Sent(id),
                                      (failed && id == first) || (outcome.GaveUp? && id == |d.streams|))
    ensures |WriteTo(d, g, first, env).0.streams|
         == |d.streams| + if !CanSend(d, first, env.sends.0) && env.setups.1 then 1 else 0
  {
    NoticesKeepStreams(d, env.notices.0);
    var e := Try(Notices(d, env.notices.0));
    if !CanSend(e, first, env.sends.0) { RetryStreams(Kill(e, first), g, env, id); }
    hide Notices, Retry;
  }

  /** A write on this stream failed. */
  predicate FailedOn(d: Demux, g: Datagram, env: Env, id: nat) {
    || (HasStream(d, g, env) && !FirstWriteSucceeds(d, g, env) && id == FirstStream(d, g))
    || (SetUpAgain(d, g, env) && !env.sends.1 && id + 1 == |Handle(d, g, env).0.streams|)
  }

  /**
   * Every stream carries what it did, the one that accepted the datagram carries it once more, and a
   * stream is reset exactly when a write on it failed.
   */
  lemma StreamsAfter(d: Demux, g: Datagram, env: Env, id: nat)
    requires Isolated(d) && id < |Handle(d, g, env).0.streams|
    ensures var (e, outcome) := Handle(d, g, env);
            e.streams[id] == Carrying(StreamBefore(d, g, id), g, outcome == Sent(id), FailedOn(d, g, env, id))
  {
    SentExactly(d, g, env);
    StreamCount(d, g, env);
    var (start, first) := FirstTarget(d, g);
    if HasStream(d, g, env) {
      assert first < |start.streams|;
      WriteToStreams(start, g, first, env, id);
    }
    hide WriteTo, Isolated;
  }

  /** The callbacks that have run by the end. */
  function RanNotices(d: Demux, g: Datagram, env: Env): seq<nat> {
    (if HasStream(d, g, env) then env.notices.0 else []) + (if SetUpAgain(d, g, env) then env.notices.1 else [])
  }

  lemma RetryMap(d: Demux, g: Datagram, env: Env, c: string)
    ensures var (e, outcome) := Retry(d, g, env);
            && (c != g.from ==>
                  && (c in e.client2Chain <==>
                        c in d.client2Chain && !(env.setups.1 && d.client2Chain[c] in env.notices.1))
                  && (c in e.client2Chain ==> e.client2Chain[c] == d.client2Chain[c]))
            && (outcome.Sent? ==>
                  && (g.from in e.client2Chain <==> |d.streams| !in env.notices.1)
                  && (g.from in e.client2Chain ==> e.client2Chain[g.from] == outcome.stream))
  {
    NoticesKeepStreams(Connect(d, g.from), env.notices.1);
    NoticesForget(Connect(d, g.from), env.notices.1, c);
    NoticesForget(Connect(d, g.from), env.notices.1, g.from);
    hide Notices;
  }

  lemma NoticedMap(d: Demux, ids: seq<nat>, c: string)
    ensures var e := Notices(d, ids);
            && (c in e.client2Chain <==> c in d.client2Chain && d.client2Chain[c] !in ids)
            && (c in e.client2Chain ==> e.client2Chain[c] == d.client2Chain[c])
  {
    NoticesKeepStreams(d, ids);
    NoticesForget(d, ids, c);
  }

  /** No other client is affected, but for the callbacks of its own stream. */
  lemma OthersStayMapped(d: Demux, g: Datagram, env: Env, c: string)
    requires Isolated(d) && c != g.from
    ensures var e := Handle(d, g, env).0;
            && (c in e.client2Chain <==> c in d.client2Chain && d.client2Chain[c] !in RanNotices(d, g, env))
            && (c in e.client2Chain ==> e.client2Chain[c] == d.client2Chain[c])
  {
    var (start, id) := FirstTarget(d, g);
    NoticesKeepStreams(start, env.notices.0);
    NoticedMap(start, env.notices.0, c);
    RetryMap(Kill(Try(Notices(start, env.notices.0)), id), g, env, c);
    hide Notices, Isolated, Retry;
  }

  /** After an accepted datagram the sender is mapped to the stream that took it, unless its callback has run. */
  lemma SenderStaysMapped(d: Demux, g: Datagram, env: Env)
    requires Isolated(d) && Handle(d, g, env).1.Sent?
    ensures var (e, outcome) := Handle(d, g, env);
            && (g.from in e.client2Chain <==>
                  outcome.stream !in if SetUpAgain(d, g, env) then env.notices.1 else env.notices.0)
            && (g.from in e.client2Chain ==> e.client2Chain[g.from] == outcome.stream)
  {
    StreamCount(d, g, env);
    var (start, id) := FirstTarget(d, g);
    NoticesKeepStreams(start, env.notices.0);
    NoticedMap(start, env.notices.0, g.from);
    RetryMap(Kill(Try(Notices(start, env.notices.0)), id), g, env, g.from);
    hide Notices, Isolated, Retry;
  }

  // --- Replies and closing, over runs ---

  function PayloadOn(id: nat): Reply -> Option<seq<byte>> {
    (r: Reply) => if r.stream == id then Some(r.payload) else None
  }

  /** The non-empty messages that came back on a stream while it was open and the proxy ran. */
  function CameBack(events: seq<Event>, id: nat): seq<seq<byte>> {
    if events == [] then []
    else
      var d, e := After(events[..|events| - 1]), events[|events| - 1];
      CameBack(events[..|events| - 1], id) +
      if e.Back? && e.id == id && e.payload != [] && d.running && id < |d.streams| && d.streams[id].alive
      then [e.payload] else []
  }

  lemma AnswerReplies(d: Demux, back: nat, payload: seq<byte>, id: nat)
    ensures FilterMap(PayloadOn(id), Answer(d, back, payload).replies)
         == FilterMap(PayloadOn(id), d.replies) +
            if back == id && payload != [] && id < |d.streams| && d.streams[id].alive then [payload] else []
  {
    if back < |d.streams| && d.streams[back].alive && payload != [] {
      var r := Reply(d.streams[back].replyTo, back, payload);
      FilterMapConcat(PayloadOn(id), d.replies, [r]);
      assert FilterMap(PayloadOn(id), [r]) == One(PayloadOn(id)(r));
    }
  }

  lemma OtherEventsReplyNothing(d: Demux, e: Event)
    requires Isolated(d) && !e.Back?
    ensures OnEvent(d, e).replies == d.replies
  {
    if e.Arrive? { OneDatagram(d, e.datagram, e.env); }
    hide Handle, Isolated;
  }

  /** Each reverse forwarder writes exactly the non-empty messages of its stream, once each and in order. */
  lemma {:induction false} RepliesAreWhatCameBack(events: seq<Event>, id: nat)
    ensures FilterMap(PayloadOn(id), After(events).replies) == CameBack(events, id)
  {
    if events != [] {
      var before, e := events[..|events| - 1], events[|events| - 1];
      RepliesAreWhatCameBack(before, id);
      Reachable(before);
      hide FilterMap, Isolated, Ordered, Handle, Answer;
      if e.Back? {
        AnswerReplies(After(before), e.id, e.payload, id);
      } else {
        OtherEventsReplyNothing(After(before), e);
      }
    }
  }

  /** A stream that closes carries nothing more; its callback, if it runs, forgets that stream's client only. */
  lemma CloseForgets(d: Demux, id: nat, noticed: bool)
    requires d.running
    ensures var e := OnEvent(d, Close(id, noticed));
            && |e.streams| == |d.streams| && e.running
            && (forall c :: c in e.client2Chain <==> c in d.client2Chain && !(noticed && d.client2Chain[c] == id))
            && (forall c :: c in e.client2Chain ==> e.client2Chain[c] == d.client2Chain[c])
            && forall k :: 0 <= k < |d.streams| ==>
                 e.streams[k] == d.streams[k].(alive := d.streams[k].alive && k != id)
  {}

  lemma DeadStep(d: Demux, e: Event, id: nat)
    requires Isolated(d) && id < |d.streams| && !d.streams[id].alive
    ensures id < |OnEvent(d, e).streams| && OnEvent(d, e).streams[id] == d.streams[id]
  {
    if e.Arrive? {
      SentExactly(d, e.datagram, e.env);
      StreamCount(d, e.datagram, e.env);
      StreamsAfter(d, e.datagram, e.env, id);
      hide Handle, Isolated;
    }
  }

  /** Once closed or reset, a stream is never written to again. */
  lemma {:induction false} DeadStaysDead(events: seq<Event>, n: nat, id: nat)
    requires n <= |events| && id < |After(events[..n]).streams| && !After(events[..n]).streams[id].alive
    ensures id < |After(events).streams| && After(events).streams[id] == After(events[..n]).streams[id]
  {
    if n < |events| {
      var m := |events| - 1;
      assert events[..m][..n] == events[..n];
      DeadStaysDead(events[..m], n, id);
      Reachable(events[..m]);
      hide Isolated, Ordered, OnEvent;
      DeadStep(After(events[..m]), events[m], id);
    } else {
      assert events[..n] == events;
    }
  }

  /** A proxy that has shut down does nothing more. */
  lemma {:induction false} StoppedForGood(events: seq<Event>, n: nat)
    requires n <= |events| && !After(events[..n]).running
    ensures After(events) == After(events[..n])
  {
    if n < |events| {
      assert events[..|events| - 1][..n] == events[..n];
      StoppedForGood(events[..|events| - 1], n);
    } else {
      assert events[..n] == events;
    }
  }

  /** The case is reached: a stopped proxy may still map the sender to a dead stream. */
  lemma ShutDownKeepsDeadStream()
    ensures exists events, g, env ::
              var d := After(events);
              var (e, outcome) := Handle(d, g, env);
              d.running && outcome.ShutDown? && g.from in e.client2Chain && !CanSend(e, e.client2Chain[g.from], true)
  {
    var g := Datagram("c", [1]);
    var env := Env((true, false), (false, false), ([], []));
    assert After([]) == EMPTY;
    var (e, outcome) := Handle(After([]), g, env);
    assert outcome == ShutDown && "c" in e.client2Chain && e.client2Chain["c"] == 0;
  }
}
