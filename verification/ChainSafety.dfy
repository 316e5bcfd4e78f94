/** What the chain promises in every run. */
module ChainSafety {
  import opened Common
  import opened ChainSpec
  import opened ChainProtocol
  import opened ChainInvariant

  ghost predicate Received(s: State, i: nat)
    requires Paired(s) && i < |s.nodes|
  {
    s.links[i].fwd.got >= 1
  }

  ghost predicate Acked(s: State, i: nat)
    requires Paired(s) && i < |s.nodes|
  {
    s.links[i].bwd.log != []
  }

  lemma NodeFacts(s: State, i: nat)
    requires Inv(s) && i < |s.nodes|
    ensures ViewOk(s.spec, ViewOf(s, i), NextOf(s, i))
  {}

  /** Whatever this node is ready to receive next has the type that it expects there. */
  ghost predicate ReceivesTyped(spec: seq<string>, v: View) {
    (v.inL.fwd.Ready() ==>
      var m := v.inL.fwd.log[v.inL.fwd.got];
      (v.node.phase.Waiting? ==> m == SetupRequest(spec)) && (v.node.phase.Relay? ==> m.Data?)) &&
    (v.out.Some? && v.out.value.bwd.Ready() ==>
      var m := v.out.value.bwd.log[v.out.value.bwd.got];
      (v.node.phase.AwaitAck? ==> m.SetupACK?) && (v.node.phase.Relay? ==> m.Data?))
  }

  ghost predicate SourceReceivesTyped(s: State) {
    s.links != [] && s.links[0].bwd.Ready() ==>
      var m := s.links[0].bwd.log[s.links[0].bwd.got];
      (s.src.Dialled? ==> m.SetupACK?) && (s.src.Open? ==> m.Data?)
  }

  lemma TypedView(spec: seq<string>, v: View, next: Option<string>)
    requires ViewOk(spec, v, next)
    ensures ReceivesTyped(spec, v)
  {
    hide Payload, TurnOf, BytesOk, AckOk;
  }

  /** No receive ever meets a message of another type, in any state of any run, failures or not. */
  lemma TypedReceives(spec: seq<string>, actions: seq<Action>)
    ensures var s := Exec(spec, actions);
            Paired(s) && SourceReceivesTyped(s) &&
            forall i :: 0 <= i < |s.nodes| ==> ReceivesTyped(spec, ViewOf(s, i)) && LinkOk(spec, s.links[i])
  {
    Reachable(spec, actions);
    hide Payload, PhaseOk, BytesOk, AckOk, Exec;
    var s := Exec(spec, actions);
    forall i | 0 <= i < |s.nodes|
      ensures ReceivesTyped(spec, ViewOf(s, i)) && LinkOk(spec, s.links[i])
    {
      NodeFacts(s, i);
      TypedView(spec, ViewOf(s, i), NextOf(s, i));
    }
  }

  // --- Setup ---

  /** The proxies the request reached come first in the chain; those that acknowledged come last. */
  lemma {:induction false} PrefixAndSuffix(spec: seq<string>, actions: seq<Action>, i: nat, j: nat)
    requires i <= j < |Exec(spec, actions).nodes|
    ensures var s := Exec(spec, actions);
            Paired(s) && (Received(s, j) ==> Received(s, i)) && (Acked(s, i) ==> Acked(s, j)) &&
            (Acked(s, i) ==> Received(s, i))
    decreases j - i
  {
    hide Payload, TurnOf, BytesOk, Exec;
    Reachable(spec, actions);
    var s := Exec(spec, actions);
    NodeFacts(s, i);
    if i < j {
      PrefixAndSuffix(spec, actions, i + 1, j);
    }
  }

  function Names(nodes: seq<Node>): seq<string> {
    if nodes == [] then [] else [nodes[0].service] + Names(nodes[1..])
  }

  function Reverse(s: seq<string>): seq<string> {
    if s == [] then [] else Reverse(s[1..]) + [s[0]]
  }

  /** The names with one space between neighbours. */
  function JoinSpaces(s: seq<string>): string {
    if s == [] then ""
    else if |s| == 1 then s[0]
    else JoinSpaces(s[..|s| - 1]) + " " + s[|s| - 1]
  }

  function ReverseChain(nodes: seq<Node>): string {
    REV_CHAIN_MSG_PREFIX + JoinSpaces(Reverse(Names(nodes)))
  }

  lemma JoinSpacesPut(names: seq<string>, name: string)
    requires names != []
    ensures JoinSpaces(names + [name]) == JoinSpaces(names) + " " + name
  {
    assert (names + [name])[..|names|] == names;
  }

  lemma {:induction false} ReverseLength(s: seq<string>)
    ensures |Reverse(s)| == |s|
  {
    if s != [] { ReverseLength(s[1..]); }
  }

  lemma {:induction false} NamesLength(nodes: seq<Node>)
    ensures |Names(nodes)| == |nodes|
    ensures forall k :: 0 <= k < |nodes| ==> Names(nodes)[k] == nodes[k].service
  {
    if nodes != [] { NamesLength(nodes[1..]); }
  }

  lemma ReverseChainExtends(nodes: seq<Node>)
    requires |nodes| > 1
    ensures ReverseChain(nodes) == Extend(ReverseChain(nodes[1..]), nodes[0].service)
  {
    var rest, name := Reverse(Names(nodes[1..])), nodes[0].service;
    ReverseLength(Names(nodes[1..]));
    NamesLength(nodes[1..]);
    assert Names(nodes)[1..] == Names(nodes[1..]);
    assert Reverse(Names(nodes)) == rest + [name];
    JoinSpacesPut(rest, name);
    hide Reverse, Names, JoinSpaces;
    var names := JoinSpaces(rest);
    assert REV_CHAIN_MSG_PREFIX + names + " " + name == REV_CHAIN_MSG_PREFIX + (names + " " + name);
  }

  lemma LastReverseChain(n: Node)
    ensures ReverseChain([n]) == REV_CHAIN_MSG_PREFIX + n.service
  {
    assert Names([n]) == [n.service];
    assert Reverse([n.service]) == [n.service];
  }

  /** A proxy acknowledges only after all those behind it, and names them all. */
  lemma {:induction false} AckedToTheEnd(s: State, i: nat)
    requires Inv(s) && i < |s.nodes| && Acked(s, i)
    ensures forall k :: i <= k < |s.nodes| ==> Acked(s, k)
    ensures s.nodes[|s.nodes| - 1].turn.End?
    ensures s.links[i].bwd.log[0] == SetupACK(ReverseChain(s.nodes[i..]))
    decreases |s.nodes| - i
  {
    hide Payload, TurnOf, BytesOk, ReverseChain;
    NodeFacts(s, i);
    if s.nodes[i].turn.End? {
      assert s.nodes[i..] == [s.nodes[i]];
      LastReverseChain(s.nodes[i]);
    } else {
      AckedToTheEnd(s, i + 1);
      assert s.nodes[i..][1..] == s.nodes[i + 1..];
      ReverseChainExtends(s.nodes[i..]);
    }
  }

  /** The handlers run are those met by following the specification from its first service. */
  lemma {:induction false} NodesFollowSpec(s: State, i: nat)
    requires Inv(s) && i < |s.nodes|
    ensures Visit(s.spec, i) == Some(s.nodes[i].service)
    ensures s.nodes[i].turn.End? ==> i + 1 == |s.nodes| && Visit(s.spec, i + 1) == None
  {
    hide Payload, TurnOf, BytesOk, AckOk, IsProto;
    NodeFacts(s, i);
    if i > 0 {
      NodesFollowSpec(s, i - 1);
      NodeFacts(s, i - 1);
    }
  }

  lemma OpenFacts(s: State)
    requires Inv(s) && s.src.Open?
    ensures s.nodes != [] && Acked(s, 0) && s.links[0].bwd.log[0] == SetupACK(s.src.debug)
  {
    hide ViewOk, Payload;
  }

  lemma OpenIsAcked(s: State)
    requires Inv(s) && s.src.Open?
    ensures s.nodes != [] && (forall k :: 0 <= k < |s.nodes| ==> Acked(s, k))
    ensures s.nodes[|s.nodes| - 1].turn.End? && s.src.debug == ReverseChain(s.nodes)
  {
    OpenFacts(s);
    hide Inv, Acked, ReverseChain;
    AckedToTheEnd(s, 0);
    assert s.nodes[0..] == s.nodes;
  }

  lemma NodesFollowWalk(s: State)
    requires Inv(s) && s.nodes != [] && s.nodes[|s.nodes| - 1].turn.End?
    ensures forall k :: 0 <= k < |s.nodes| ==> Visit(s.spec, k) == Some(s.nodes[k].service)
    ensures Visit(s.spec, |s.nodes|) == None
  {
    hide Inv, Visit;
    forall k | 0 <= k < |s.nodes|
      ensures Visit(s.spec, k) == Some(s.nodes[k].service)
    {
      NodesFollowSpec(s, k);
    }
    NodesFollowSpec(s, |s.nodes| - 1);
  }

  /** setupChain succeeds only when every proxy has acknowledged, and then reads their names in reverse. */
  lemma SetupSuccess(spec: seq<string>, actions: seq<Action>)
    requires Exec(spec, actions).src.Open?
    ensures var s := Exec(spec, actions);
            && Paired(s) && s.nodes != []
            && (forall k :: 0 <= k < |s.nodes| ==> Acked(s, k))
            && (forall k :: 0 <= k < |s.nodes| ==> Visit(spec, k) == Some(s.nodes[k].service))
            && Visit(spec, |s.nodes|) == None
            && s.src.debug == ReverseChain(s.nodes)
  {
    hide ReverseChain, Visit, Exec, ViewOk, SourceOk, Acked;
    Reachable(spec, actions);
    OpenIsAcked(Exec(spec, actions));
    NodesFollowWalk(Exec(spec, actions));
  }

  /** A chain that can be set up names each service contiguously, and runs one handler for each, in order. */
  lemma SetupOnlyContiguous(spec: seq<string>, actions: seq<Action>)
    requires WellFormed(spec) && Exec(spec, actions).src.Open?
    ensures Contiguous(Chain(spec))
    ensures Names(Exec(spec, actions).nodes) == Stops(Chain(spec))
  {
    hide WellFormed, Contiguous, Chain, Stops, Visit, ReverseChain;
    SetupSuccess(spec, actions);
    var nodes := Exec(spec, actions).nodes;
    var stops := Stops(Chain(spec));
    ChainEndsIffContiguous(spec);
    NamesLength(nodes);
    ContiguousVisits(spec, |nodes|);
    ContiguousVisits(spec, |nodes| - 1);
    forall k | 0 <= k < |nodes| ensures k < |stops| && Names(nodes)[k] == stops[k] {
      ContiguousVisits(spec, k);
    }
  }

  // --- Relay ---

  /** On the way back below stream i: held or unread anywhere from node i to the last service. */
  ghost function Upstream(s: State, i: nat): seq<byte>
    requires Paired(s) && i < |s.nodes|
    decreases |s.nodes| - i
  {
    if i + 1 < |s.nodes| then Held(s.nodes[i].back) + Payload(s.links[i + 1].bwd.Unread()) + Upstream(s, i + 1)
    else Held(s.nodes[i].fromServ)
  }

  lemma ReceivedAndUnread(c: Chan)
    requires c.got <= |c.log|
    ensures Payload(c.log) == Payload(c.Received()) + Payload(c.Unread())
  {
    assert c.log == c.log[..c.got] + c.log[c.got..];
    PayloadConcat(c.log[..c.got], c.log[c.got..]);
  }

  lemma BackHeld(s: State, i: nat)
    requires Inv(s) && i + 1 < |s.nodes|
    ensures Payload(s.links[i].bwd.log) + Held(s.nodes[i].back) == Payload(s.links[i + 1].bwd.Received())
    ensures s.links[i + 1].bwd.got <= |s.links[i + 1].bwd.log|
  {
    hide Payload, TurnOf, AckOk, PhaseOk;
    NodeFacts(s, i);
  }

  lemma EndSent(s: State, i: nat)
    requires Inv(s) && i < |s.nodes| && s.nodes[i].turn.End?
    ensures s.nodes[i].servOut == Payload(s.links[i].bwd.log) + Held(s.nodes[i].fromServ)
  {
    hide Payload, TurnOf, AckOk, PhaseOk;
    NodeFacts(s, i);
  }

  lemma Regroup(a: seq<byte>, b: seq<byte>, c: seq<byte>, d: seq<byte>)
    ensures a + (b + c + d) == ((a + b) + c) + d
  {}

  lemma {:induction false} ReverseConserved(s: State, i: nat)
    requires Inv(s) && i < |s.nodes| && s.nodes[|s.nodes| - 1].turn.End?
    ensures Payload(s.links[i].bwd.log) + Upstream(s, i) == s.nodes[|s.nodes| - 1].servOut
    decreases |s.nodes| - i
  {
    hide Payload, ViewOk, SourceOk;
    if i + 1 < |s.nodes| {
      var b := s.links[i + 1].bwd;
      ReverseConserved(s, i + 1);
      BackHeld(s, i);
      ReceivedAndUnread(b);
      Regroup(Payload(s.links[i].bwd.log), Held(s.nodes[i].back), Payload(b.Unread()), Upstream(s, i + 1));
    } else {
      EndSent(s, i);
    }
  }

  /**
   * Once the chain is open, the bytes read from the last service are those delivered to the client,
   * followed by those in flight, stream by stream; the middle services have no say. A reset strands
   * bytes in flight, so what was delivered is always a prefix.
   */
  lemma ReverseRelay(spec: seq<string>, actions: seq<Action>)
    requires Exec(spec, actions).src.Open?
    ensures var s := Exec(spec, actions);
            Paired(s) && s.nodes != [] &&
            var out := s.nodes[|s.nodes| - 1].servOut;
            out == s.clientIn + Held(s.down) + Payload(s.links[0].bwd.Unread()) + Upstream(s, 0) && s.clientIn <= out
  {
    hide Payload, TurnOf, Upstream, ReverseChain, AckOk, Exec;
    Reachable(spec, actions);
    var s := Exec(spec, actions);
    AckedToTheEnd(s, 0);
    ReverseConserved(s, 0);
    ReceivedAndUnread(s.links[0].bwd);
  }

  /** What the party before node i has read in, and what of it is still held there. */
  ghost function Emitted(s: State, i: nat): seq<byte>
    requires i <= |s.nodes|
  {
    if i == 0 then s.clientOut else s.nodes[i - 1].servOut
  }

  ghost function HeldBefore(s: State, i: nat): seq<byte>
    requires i <= |s.nodes|
  {
    Held(if i == 0 then s.up else s.nodes[i - 1].fromServ)
  }

  /** Each service is fed exactly what the party before it emitted, in order, less what is in flight. */
  lemma ForwardRelay(spec: seq<string>, actions: seq<Action>, i: nat)
    requires i < |Exec(spec, actions).nodes|
    ensures var s := Exec(spec, actions);
            Paired(s) && s.nodes[i].servIn <= Emitted(s, i) &&
            Emitted(s, i) == s.nodes[i].servIn + Held(s.nodes[i].toServ)
                             + Payload(s.links[i].fwd.Unread()) + HeldBefore(s, i)
  {
    hide Payload, TurnOf, AckOk, Exec;
    Reachable(spec, actions);
    var s := Exec(spec, actions);
    NodeFacts(s, i);
    ReceivedAndUnread(s.links[i].fwd);
    if i > 0 { NodeFacts(s, i - 1); }
  }
}
