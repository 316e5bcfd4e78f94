/** How the forwarders of a running chain take each other down. */
module Teardown {

  datatype Transport = Tcp | Udp

  /** The client's connection, the streams between proxies and the connections to the services. */
  datatype Resource = Client | Stream(i: nat) | Service(i: nat)

  datatype Kind = TcpStream2Conn | TcpConn2Stream | UdpStream2Conn | UdpStream2Client | UdpConn2Stream | Stream2Stream

  /** A forwarder reads src and writes dst; it ends when a read or a write fails. */
  datatype Forwarder = Forwarder(kind: Kind, src: Resource, dst: Resource) {
    /** What it closes on the way out: replies to a UDP client share the listening socket, which stays open. */
    function Closes(): set<Resource> {
      if kind.UdpStream2Client? then {src} else {src, dst}
    }
  }

  function FromStream(t: Transport, i: nat): Forwarder {
    Forwarder(if t.Tcp? then TcpStream2Conn else UdpStream2Conn, Stream(i), Service(i))
  }

  function ToStream(t: Transport, i: nat, j: nat): Forwarder {
    Forwarder(if t.Tcp? then TcpConn2Stream else UdpConn2Stream, Service(i), Stream(j))
  }

  /** The middle-of-chain and end-of-chain handlers of hop i of n. */
  function HopForwarders(hops: seq<Transport>, i: nat): set<Forwarder>
    requires i < |hops|
  {
    if i + 1 < |hops| then
      {FromStream(hops[i], i), ToStream(hops[i], i, i + 1), Forwarder(Stream2Stream, Stream(i + 1), Stream(i))}
    else {FromStream(hops[i], i), ToStream(hops[i], i, i)}
  }

  /** A TCP source relays both ways; a UDP source replies through the shared socket and keeps reading it. */
  function SourceForwarders(source: Transport): set<Forwarder> {
    if source.Tcp? then {Forwarder(TcpConn2Stream, Client, Stream(0)), Forwarder(TcpStream2Conn, Stream(0), Client)}
    else {Forwarder(UdpStream2Client, Stream(0), Client)}
  }

  function FirstHops(hops: seq<Transport>, k: nat): set<Forwarder>
    requires k <= |hops|
  {
    if k == 0 then {} else FirstHops(hops, k - 1) + HopForwarders(hops, k - 1)
  }

  function Forwarders(source: Transport, hops: seq<Transport>): set<Forwarder> {
    SourceForwarders(source) + FirstHops(hops, |hops|)
  }

  /** What a chain owns: a UDP source's listening socket is not its own. */
  predicate Owned(source: Transport, hops: seq<Transport>, r: Resource) {
    match r
    case Client => source.Tcp?
    case Stream(i) => i < |hops|
    case Service(i) => i < |hops|
  }

  datatype State = State(running: set<Forwarder>, closed: set<Resource>)

  /** A forwarder may end once what it reads, or what it writes, is closed. */
  ghost predicate Exit(s: State, f: Forwarder, s': State) {
    f in s.running && (f.src in s.closed || f.dst in s.closed) &&
    s' == State(s.running - {f}, s.closed + f.Closes())
  }

  /** A blocked read on something closed always fails, so such a forwarder is bound to end. */
  ghost predicate Quiescent(s: State) {
    forall f :: f in s.running ==> f.src !in s.closed
  }

  ghost predicate Run(states: seq<State>, exits: seq<Forwarder>) {
    |states| == |exits| + 1 && forall k :: 0 <= k < |exits| ==> Exit(states[k], exits[k], states[k + 1])
  }

  /** All forwarders running, and something of the chain's own just closed. */
  ghost predicate Disturbed(source: Transport, hops: seq<Transport>, s: State) {
    hops != [] && s.running == Forwarders(source, hops) && s.closed != {} &&
    forall r :: r in s.closed ==> Owned(source, hops, r)
  }

  lemma {:induction false} FirstHopsMember(hops: seq<Transport>, k: nat, f: Forwarder)
    requires k <= |hops|
    ensures f in FirstHops(hops, k) <==> exists i :: 0 <= i < k && f in HopForwarders(hops, i)
  {
    if k > 0 {
      FirstHopsMember(hops, k - 1, f);
    }
  }

  lemma HopsIncluded(source: Transport, hops: seq<Transport>, i: nat)
    requires i < |hops|
    ensures HopForwarders(hops, i) <= Forwarders(source, hops)
  {
    forall f | f in HopForwarders(hops, i)
      ensures f in Forwarders(source, hops)
    {
      FirstHopsMember(hops, |hops|, f);
    }
  }

  /** Whatever has ended has closed what it owns; nothing else has been closed. */
  ghost predicate Inv(source: Transport, hops: seq<Transport>, s: State) {
    s.running <= Forwarders(source, hops) &&
    (forall f :: f in Forwarders(source, hops) && f !in s.running ==> f.Closes() <= s.closed) &&
    (forall r :: r in s.closed ==> Owned(source, hops, r)) && s.closed != {}
  }

  lemma ClosesOwned(source: Transport, hops: seq<Transport>, f: Forwarder)
    requires hops != [] && f in Forwarders(source, hops)
    ensures forall r :: r in f.Closes() ==> Owned(source, hops, r)
  {
    FirstHopsMember(hops, |hops|, f);
    if f !in SourceForwarders(source) {
      var i :| 0 <= i < |hops| && f in HopForwarders(hops, i);
    }
  }

  lemma {:induction false} RunKeepsInv(source: Transport, hops: seq<Transport>,
                                           states: seq<State>, exits: seq<Forwarder>, k: nat)
    requires Run(states, exits) && Disturbed(source, hops, states[0]) && k < |states|
    ensures Inv(source, hops, states[k])
    ensures |states[k].running| + k == |Forwarders(source, hops)|
  {
    if k > 0 {
      RunKeepsInv(source, hops, states, exits, k - 1);
      assert Exit(states[k - 1], exits[k - 1], states[k]);
      ClosesOwned(source, hops, exits[k - 1]);
    }
  }

  /** In a quiescent state closure has passed along every edge from source to destination. */
  ghost predicate Propagated(source: Transport, hops: seq<Transport>, closed: set<Resource>) {
    forall f :: f in Forwarders(source, hops) && f.src in closed && !f.kind.UdpStream2Client? ==> f.dst in closed
  }

  lemma Edge(source: Transport, hops: seq<Transport>, closed: set<Resource>, i: nat, f: Forwarder)
    requires Propagated(source, hops, closed) && i < |hops| && f in HopForwarders(hops, i) && f.src in closed
    ensures f.dst in closed
  {
    HopsIncluded(source, hops, i);
    assert f in Forwarders(source, hops);
    assert !f.kind.UdpStream2Client?;
  }

  /** Closure runs back along the streams to the first one ... */
  lemma {:induction false} BackToFirst(source: Transport, hops: seq<Transport>, closed: set<Resource>, i: nat)
    requires Propagated(source, hops, closed) && i < |hops| && Stream(i) in closed
    ensures Stream(0) in closed
  {
    if i > 0 {
      Edge(source, hops, closed, i - 1, Forwarder(Stream2Stream, Stream(i), Stream(i - 1)));
      BackToFirst(source, hops, closed, i - 1);
    }
  }

  /** ... and out again through every service. */
  lemma {:induction false} OutThroughServices(source: Transport, hops: seq<Transport>, closed: set<Resource>, i: nat)
    requires Propagated(source, hops, closed) && i < |hops| && Stream(0) in closed
    ensures Stream(i) in closed && Service(i) in closed
  {
    if i > 0 {
      OutThroughServices(source, hops, closed, i - 1);
      Edge(source, hops, closed, i - 1, ToStream(hops[i - 1], i - 1, i));
    }
    Edge(source, hops, closed, i, FromStream(hops[i], i));
  }

  /** Each resource of the chain leads to every other. */
  lemma StronglyConnected(source: Transport, hops: seq<Transport>, closed: set<Resource>, r: Resource, r': Resource)
    requires hops != [] && Propagated(source, hops, closed)
    requires Owned(source, hops, r) && r in closed && Owned(source, hops, r')
    ensures r' in closed
  {
    if r.Client? {
      assert Forwarder(TcpConn2Stream, Client, Stream(0)) in Forwarders(source, hops);
    } else {
      if r.Service? {
        var j := if r.i + 1 < |hops| then r.i + 1 else r.i;
        Edge(source, hops, closed, r.i, ToStream(hops[r.i], r.i, j));
        BackToFirst(source, hops, closed, j);
      } else {
        BackToFirst(source, hops, closed, r.i);
      }
    }
    if r'.Client? {
      assert Forwarder(TcpStream2Conn, Stream(0), Client) in Forwarders(source, hops);
    } else {
      OutThroughServices(source, hops, closed, r'.i);
    }
  }

  lemma QuiescentPropagated(source: Transport, hops: seq<Transport>, s: State)
    requires Inv(source, hops, s) && Quiescent(s)
    ensures Propagated(source, hops, s.closed)
  {}

  lemma SourcesOwned(source: Transport, hops: seq<Transport>, f: Forwarder)
    requires hops != [] && f in Forwarders(source, hops)
    ensures Owned(source, hops, f.src)
  {
    ClosesOwned(source, hops, f);
    assert f.src in f.Closes();
  }

  /**
   * Once anything of a running chain closes, every run of forwarder exits that cannot go on has closed
   * everything the chain owns, nothing else, and left no forwarder running.
   */
  lemma TeardownIsTotal(source: Transport, hops: seq<Transport>, states: seq<State>, exits: seq<Forwarder>)
    requires Run(states, exits) && Disturbed(source, hops, states[0]) && Quiescent(states[|states| - 1])
    ensures var end := states[|states| - 1];
            (forall r :: r in end.closed <==> Owned(source, hops, r)) && end.running == {}
  {
    var end := states[|states| - 1];
    RunKeepsInv(source, hops, states, exits, |states| - 1);
    QuiescentPropagated(source, hops, end);
    var r :| r in end.closed;
    forall r' | Owned(source, hops, r')
      ensures r' in end.closed
    {
      StronglyConnected(source, hops, end.closed, r, r');
    }
    forall f | f in end.running ensures false {
      SourcesOwned(source, hops, f);
    }
  }

  /** A forwarder may end exactly when what it reads or what it writes is closed. */
  lemma MayEndIff(s: State, f: Forwarder)
    ensures (exists s' :: Exit(s, f, s')) <==> f in s.running && (f.src in s.closed || f.dst in s.closed)
  {
    if f in s.running && (f.src in s.closed || f.dst in s.closed) {
      assert Exit(s, f, State(s.running - {f}, s.closed + f.Closes()));
    }
  }

  /** No forwarder is the first to end unless something has closed before. */
  lemma NothingEndsByItself(states: seq<State>, exits: seq<Forwarder>)
    requires Run(states, exits) && exits != []
    ensures states[0].closed != {} && (exits[0].src in states[0].closed || exits[0].dst in states[0].closed)
  {
    assert Exit(states[0], exits[0], states[1]);
  }

  lemma {:induction false} HopCount(hops: seq<Transport>, k: nat)
    requires k <= |hops|
    ensures |FirstHops(hops, k)| <= if 0 < k == |hops| then 3 * k - 1 else 3 * k
  {
    if k > 0 {
      HopCount(hops, k - 1);
      var a, b := FirstHops(hops, k - 1), HopForwarders(hops, k - 1);
      assert |b| <= if k == |hops| then 2 else 3;
      assert |a + b| <= |a| + |b|;
    }
  }

  /** Every run of exits is short, and before everything is closed another exit is bound to come. */
  lemma TeardownIsFinite(source: Transport, hops: seq<Transport>, states: seq<State>, exits: seq<Forwarder>)
    requires Run(states, exits) && Disturbed(source, hops, states[0])
    ensures |exits| <= 3 * |hops| + 1
    ensures var end := states[|states| - 1];
            (exists r :: Owned(source, hops, r) && r !in end.closed)
              ==> exists f :: f in end.running && f.src in end.closed
  {
    RunKeepsInv(source, hops, states, exits, |exits|);
    HopCount(hops, |hops|);
    var a, b := SourceForwarders(source), FirstHops(hops, |hops|);
    assert |a| <= 2;
    assert |a + b| <= |a| + |b|;
    if Quiescent(states[|states| - 1]) {
      TeardownIsTotal(source, hops, states, exits);
    }
  }
}
