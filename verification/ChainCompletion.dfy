/**
 * The converse of chain safety: every contiguous chain has a run in which setup succeeds and leaves all
 * proxies relaying, and from there every chunk can reach where it is meant to go.
 */
module ChainCompletion {
  import opened Common
  import opened ChainSpec
  import opened ChainProtocol
  import opened ChainInvariant
  import opened ChainSafety

  lemma ExecNext(spec: seq<string>, actions: seq<Action>, a: Action)
    ensures Exec(spec, actions + [a]) == Step(Exec(spec, actions), a)
  {
    assert (actions + [a])[..|actions|] == actions;
  }

  lemma ExecTwo(spec: seq<string>, actions: seq<Action>, a: Action, b: Action)
    ensures Exec(spec, actions + [a] + [b]) == Step(Step(Exec(spec, actions), a), b)
  {
    ExecNext(spec, actions, a);
    ExecNext(spec, actions + [a], b);
  }

  predicate Drained(c: Chan) {
    c.got == |c.log|
  }

  predicate EmptyHanded(n: Node) {
    n.toServ.None? && n.fromServ.None? && n.back.None?
  }

  /** Node j relays and its input stream is intact, with nothing in flight forwards. */
  ghost predicate Relaying(s: State, j: nat)
    requires Paired(s) && j < |s.nodes|
  {
    s.nodes[j].phase.Relay? && !s.links[j].reset && Drained(s.links[j].fwd)
  }

  /** Nothing is held at any node or at the source. */
  ghost predicate NothingHeld(s: State) {
    Paired(s) && s.up.None? && s.down.None? && forall j :: 0 <= j < |s.nodes| ==> EmptyHanded(s.nodes[j])
  }

  // --- Setup ---

  /** The proxies before k wait for an ACK on streams that are intact. */
  ghost predicate AwaitingBefore(s: State, k: nat) {
    NothingHeld(s) && k < |s.nodes| && s.src.Dialled? && !s.links[k].reset &&
    forall j :: 0 <= j < k ==>
      s.nodes[j].phase.AwaitAck? && !s.links[j].reset && s.links[j].bwd == SILENT && Drained(s.links[j].fwd)
  }

  /** The request has just been sent to proxy k. */
  ghost predicate Descending(s: State, k: nat) {
    AwaitingBefore(s, k) && |s.nodes| == k + 1 && s.nodes[k].phase.Waiting? && s.links[k] == NewLink(s.spec, false)
  }

  /** The ACK of proxy k is under way, and all from k on are relaying. */
  ghost predicate Ascending(s: State, k: nat) {
    AwaitingBefore(s, k) && s.links[k].bwd.got == 0 && |s.links[k].bwd.log| == 1 &&
    forall j :: k <= j < |s.nodes| ==> Relaying(s, j) && (j > k ==> Drained(s.links[j].bwd))
  }

  /** The chain is open, every proxy relays, and nothing is held or in flight anywhere. */
  ghost predicate Quiet(s: State) {
    NothingHeld(s) && s.src.Open? && s.nodes != [] &&
    forall j :: 0 <= j < |s.nodes| ==> Relaying(s, j) && Drained(s.links[j].bwd)
  }

  lemma TurnProto(spec: seq<string>, service: string)
    requires WellFormed(spec) && !TurnOf(spec, service).NotFound?
    ensures IsProto(TurnOf(spec, service).proto)
  {
    FirstHop(spec);
    hide Hops, Cut, WellFormed, IsProto;
    var hops := Hops(spec, "");
    assert hops[RunEnd(hops, service, FirstOf(hops, service)) - 1] in hops;
  }

  lemma TurnFound(spec: seq<string>, service: string)
    requires WellFormed(spec) && service in Stops(Chain(spec))
    ensures !TurnOf(spec, service).NotFound?
  {
    StopIsHop(spec, service);
    CutTurn(spec, service);
    hide Hops, Cut, WellFormed, Stops;
  }

  ghost predicate KnownTurn(s: State, k: nat)
    requires k < |s.nodes|
  {
    var t := TurnOf(s.spec, s.nodes[k].service);
    !t.NotFound? && IsProto(t.proto)
  }

  lemma TurnKnown(s: State, k: nat)
    requires Inv(s) && k < |s.nodes| && WellFormed(s.spec) && Contiguous(Chain(s.spec))
    ensures k < |Stops(Chain(s.spec))| && KnownTurn(s, k)
  {
    hide Inv, WellFormed, Contiguous, Chain, Stops, Visit, IsProto, TurnOf;
    NodesFollowSpec(s, k);
    ContiguousVisits(s.spec, k);
    TurnFound(s.spec, s.nodes[k].service);
    TurnProto(s.spec, s.nodes[k].service);
  }

  /** The proxy the request has reached reads it, and passes it on or acknowledges. */
  lemma OneDown(s: State, k: nat)
    requires Inv(s) && Descending(s, k) && KnownTurn(s, k)
    ensures var t := TurnOf(s.spec, s.nodes[k].service);
            var read := Step(s, At(k, Receive));
            if t.Mid? then Descending(Step(read, Forward(k, false)), k + 1)
            else Ascending(Step(read, At(k, SendAck)), k)
  {
    hide Inv, TurnOf, IsProto;
    var read := Step(s, At(k, Receive));
    assert ViewOf(s, k).out.None?;
    assert read.nodes == s.nodes[k := DoReceive(ViewOf(s, k)).node];
    assert read.links == s.links[k := DoReceive(ViewOf(s, k)).inL];
  }

  lemma DescendingNode(s: State, k: nat)
    requires Descending(s, k)
    ensures k < |s.nodes|
  {}

  lemma {:induction false} Descend(spec: seq<string>, actions: seq<Action>, k: nat) returns (more: seq<Action>, n: nat)
    requires WellFormed(spec) && Contiguous(Chain(spec)) && Descending(Exec(spec, actions), k)
    ensures Ascending(Exec(spec, more), n)
    decreases |Stops(Chain(spec))| - k
  {
    Reachable(spec, actions);
    var s := Exec(spec, actions);
    DescendingNode(s, k);
    hide WellFormed, Contiguous, Chain, Stops, TurnOf, Step, Inv, Ascending, Descending, KnownTurn, Exec;
    TurnKnown(s, k);
    OneDown(s, k);
    if TurnOf(spec, s.nodes[k].service).Mid? {
      ExecTwo(spec, actions, At(k, Receive), Forward(k, false));
      more, n := Descend(spec, actions + [At(k, Receive)] + [Forward(k, false)], k + 1);
    } else {
      ExecTwo(spec, actions, At(k, Receive), At(k, SendAck));
      more, n := actions + [At(k, Receive)] + [At(k, SendAck)], k;
    }
  }

  lemma AwaitingView(s: State, k: nat)
    requires Inv(s) && k < |s.nodes| && s.nodes[k].phase.AwaitAck?
    ensures s.nodes[k].turn == TurnOf(s.spec, s.nodes[k].service) && k + 1 < |s.nodes|
    ensures LinkOk(s.spec, s.links[k + 1])
  {
    hide Payload, TurnOf, BytesOk, AckOk;
    NodeFacts(s, k);
    NodeFacts(s, k + 1);
  }

  /** What receiving the ACK and sending it on does to one waiting node. */
  lemma AckPassedOn(s: State, k: nat)
    requires Paired(s) && k + 1 < |s.nodes| && s.nodes[k].phase.AwaitAck? && !s.links[k].reset
    requires !s.nodes[k].turn.NotFound? && IsProto(s.nodes[k].turn.proto)
    requires s.links[k + 1].bwd.Ready() && s.links[k + 1].bwd.log[s.links[k + 1].bwd.got].SetupACK?
    ensures var (l, o) := (s.links[k], s.links[k + 1]);
            var ack := SetupACK(Extend(o.bwd.log[o.bwd.got].debug, s.nodes[k].service));
            Step(Step(s, At(k, GetAck)), At(k, SendAck))
              == s.(nodes := s.nodes[k := s.nodes[k].(phase := Relay)],
                    links := s.links[k := l.(bwd := l.bwd.Put(ack))][k + 1 := o.(bwd := o.bwd.Take())])
  {
    hide Extend, IsProto;
    var v := ViewOf(s, k);
    var got := Step(s, At(k, GetAck));
    assert got == Update(s, k, DoGetAck(v));
    assert ViewOf(got, k) == DoGetAck(v);
    assert Step(got, At(k, SendAck)) == Update(got, k, DoSendAck(DoGetAck(v)));
  }

  lemma AscendsTo(s: State, k: nat, ack: Msg, s': State)
    requires Ascending(s, k) && k > 0
    requires var (l, o) := (s.links[k - 1], s.links[k]);
             s' == s.(nodes := s.nodes[k - 1 := s.nodes[k - 1].(phase := Relay)],
                      links := s.links[k - 1 := l.(bwd := l.bwd.Put(ack))][k := o.(bwd := o.bwd.Take())])
    ensures Ascending(s', k - 1)
  {
    forall j | k - 1 <= j < |s'.nodes|
      ensures Relaying(s', j) && (j > k - 1 ==> Drained(s'.links[j].bwd))
    {
      assert j >= k ==> Relaying(s, j);
    }
  }

  lemma OneUp(s: State, k: nat)
    requires Inv(s) && Ascending(s, k) && k > 0 && KnownTurn(s, k - 1)
    ensures Ascending(Step(Step(s, At(k - 1, GetAck)), At(k - 1, SendAck)), k - 1)
  {
    hide Inv, TurnOf, IsProto, Extend, Step;
    AwaitingView(s, k - 1);
    var o := s.links[k];
    assert o.bwd.log[0].SetupACK?;
    hide LinkOk;
    AckPassedOn(s, k - 1);
    var ack := SetupACK(Extend(o.bwd.log[0].debug, s.nodes[k - 1].service));
    hide Ascending;
    AscendsTo(s, k, ack, Step(Step(s, At(k - 1, GetAck)), At(k - 1, SendAck)));
  }

  lemma AscendingNode(s: State, k: nat)
    requires Ascending(s, k)
    ensures k < |s.nodes|
  {}

  lemma Opens(s: State)
    requires Inv(s) && Ascending(s, 0)
    ensures Quiet(Step(s, SrcAck))
  {
    hide Payload, TurnOf, BytesOk, AckOk, PhaseOk;
    NodeFacts(s, 0);
    var s' := Step(s, SrcAck);
    assert s' == s.(src := s'.src, links := s.links[0 := s.links[0].(bwd := s.links[0].bwd.Take())]);
    forall j | 0 <= j < |s'.nodes|
      ensures Relaying(s', j) && Drained(s'.links[j].bwd)
    {
      assert Relaying(s, j);
    }
  }

  lemma {:induction false} Ascend(spec: seq<string>, actions: seq<Action>, k: nat) returns (more: seq<Action>)
    requires WellFormed(spec) && Contiguous(Chain(spec)) && Ascending(Exec(spec, actions), k)
    ensures Quiet(Exec(spec, more))
    decreases k
  {
    hide WellFormed, Contiguous, Chain, Stops, KnownTurn, Step, Inv, Ascending, Quiet, Exec;
    Reachable(spec, actions);
    var s := Exec(spec, actions);
    if k == 0 {
      ExecNext(spec, actions, SrcAck);
      more := actions + [SrcAck];
      Opens(s);
    } else {
      AscendingNode(s, k);
      TurnKnown(s, k - 1);
      OneUp(s, k);
      ExecTwo(spec, actions, At(k - 1, GetAck), At(k - 1, SendAck));
      more := Ascend(spec, actions + [At(k - 1, GetAck)] + [At(k - 1, SendAck)], k - 1);
    }
  }

  lemma FirstDial(spec: seq<string>)
    requires WellFormed(spec)
    ensures Descending(Step(Init(spec), Dial(false)), 0)
  {}

  /** Some run opens a contiguous chain and leaves every proxy relaying. */
  lemma SetupCompletes(spec: seq<string>) returns (actions: seq<Action>)
    requires WellFormed(spec) && Contiguous(Chain(spec))
    ensures Quiet(Exec(spec, actions))
  {
    hide WellFormed, Contiguous, Chain, Descending, Ascending, Quiet, Step;
    ExecNext(spec, [], Dial(false));
    FirstDial(spec);
    var down, n := Descend(spec, [] + [Dial(false)], 0);
    actions := Ascend(spec, down, n);
  }

  /** Setup can succeed exactly for the chains that name each service contiguously. */
  lemma SetupPossibleIffContiguous(spec: seq<string>)
    requires WellFormed(spec)
    ensures (exists actions :: Exec(spec, actions).src.Open?) <==> Contiguous(Chain(spec))
  {
    if Contiguous(Chain(spec)) {
      var actions := SetupCompletes(spec);
    }
    if actions :| Exec(spec, actions).src.Open? {
      SetupOnlyContiguous(spec, actions);
    }
  }

  // --- Relay ---

  /** As Quiet, but for one data message waiting on its way back at the upper end of stream k. */
  ghost predicate Returning(s: State, k: nat, chunk: seq<byte>) {
    NothingHeld(s) && s.src.Open? && k < |s.nodes| &&
    (forall j :: 0 <= j < |s.nodes| ==> Relaying(s, j) && (j != k ==> Drained(s.links[j].bwd))) &&
    s.links[k].bwd.got + 1 == |s.links[k].bwd.log| && s.links[k].bwd.log[s.links[k].bwd.got] == Data(chunk)
  }

  lemma MiddleTurn(s: State, k: nat)
    requires Inv(s) && k + 1 < |s.nodes|
    ensures s.nodes[k].turn.Mid?
  {
    NodeFacts(s, k);
  }

  lemma LastTurn(s: State)
    requires Inv(s) && s.src.Open?
    ensures s.nodes != [] && s.nodes[|s.nodes| - 1].turn.End?
  {
    OpenIsAcked(s);
  }

  lemma OneBack(s: State, k: nat, chunk: seq<byte>)
    requires Paired(s) && Returning(s, k, chunk) && k > 0 && s.nodes[k - 1].turn.Mid?
    ensures var s' := Step(Step(s, At(k - 1, BackGet)), At(k - 1, BackSend));
            Returning(s', k - 1, chunk) && s'.clientIn == s.clientIn
  {
    var v := ViewOf(s, k - 1);
    var got := Step(s, At(k - 1, BackGet));
    assert v.out == Some(s.links[k]) && v.out.value.bwd.Ready();
    assert got == Update(s, k - 1, DoBackGet(v));
    assert ViewOf(got, k - 1) == DoBackGet(v);
    var s' := Step(got, At(k - 1, BackSend));
    forall j | 0 <= j < |s'.nodes|
      ensures Relaying(s', j) && (j != k - 1 ==> Drained(s'.links[j].bwd))
    {
      assert Relaying(s, j);
    }
  }

  lemma LastBack(s: State, chunk: seq<byte>)
    requires Returning(s, 0, chunk)
    ensures var s' := Step(Step(s, ClientGet), ClientWrite(|chunk|));
            Quiet(s') && s'.clientIn == s.clientIn + chunk
  {
    var l := s.links[0];
    var got := Step(s, ClientGet);
    assert got == s.(down := Some(chunk), links := s.links[0 := l.(bwd := l.bwd.Take())]);
    assert Step(got, ClientWrite(|chunk|)) == got.(down := None, clientIn := s.clientIn + chunk) by {
      assert chunk[..|chunk|] == chunk;
    }
    var s' := Step(got, ClientWrite(|chunk|));
    forall j | 0 <= j < |s'.nodes|
      ensures Relaying(s', j) && Drained(s'.links[j].bwd)
    {
      assert Relaying(s, j);
    }
  }

  lemma ReturningNode(s: State, k: nat, chunk: seq<byte>)
    requires Returning(s, k, chunk)
    ensures Paired(s) && k < |s.nodes|
  {}

  lemma {:induction false} CarryBack(spec: seq<string>, actions: seq<Action>, k: nat, chunk: seq<byte>)
      returns (more: seq<Action>)
    requires Returning(Exec(spec, actions), k, chunk)
    ensures Quiet(Exec(spec, more)) && Exec(spec, more).clientIn == Exec(spec, actions).clientIn + chunk
    decreases k
  {
    hide Inv, Step, Returning, Quiet;
    Reachable(spec, actions);
    var s := Exec(spec, actions);
    ReturningNode(s, k, chunk);
    if k == 0 {
      ExecTwo(spec, actions, ClientGet, ClientWrite(|chunk|));
      more := actions + [ClientGet] + [ClientWrite(|chunk|)];
      LastBack(s, chunk);
    } else {
      MiddleTurn(s, k - 1);
      OneBack(s, k, chunk);
      ExecTwo(spec, actions, At(k - 1, BackGet), At(k - 1, BackSend));
      more := CarryBack(spec, actions + [At(k - 1, BackGet)] + [At(k - 1, BackSend)], k - 1, chunk);
    }
  }

  lemma StartBack(s: State, chunk: seq<byte>)
    requires Paired(s) && Quiet(s) && s.nodes[|s.nodes| - 1].turn.End?
    requires |chunk| <= MaxPayload(s.nodes[|s.nodes| - 1].turn.proto)
    ensures var last := |s.nodes| - 1;
            var s' := Step(Step(s, At(last, ServRead(chunk))), At(last, ServSend));
            Returning(s', last, chunk) && s'.clientIn == s.clientIn
  {
    hide MaxPayload;
    var last := |s.nodes| - 1;
    var v := ViewOf(s, last);
    var read := Step(s, At(last, ServRead(chunk)));
    assert read == Update(s, last, DoServRead(v, chunk));
    assert ViewOf(read, last) == DoServRead(v, chunk);
    var s' := Step(read, At(last, ServSend));
    forall j | 0 <= j < |s'.nodes|
      ensures Relaying(s', j) && (j != last ==> Drained(s'.links[j].bwd))
    {
      assert Relaying(s, j);
    }
  }

  lemma OpenAndPaired(s: State)
    requires Quiet(s)
    ensures Paired(s) && s.src.Open?
  {}

  /** As much as one message may carry: what a datagram or a TCP segment holds without its headers. */
  predicate InOneMessage(chunk: seq<byte>, proto: string) {
    |chunk| <= if proto == "udp" then MAX_UDP_TUNNEL_PAYLOAD else MAX_TCP_TUNNEL_PAYLOAD
  }

  /** The transport a handler found for itself. */
  function OwnProto(n: Node): string {
    if n.turn.NotFound? then "" else n.turn.proto
  }

  lemma ChunkFits(chunk: seq<byte>, proto: string)
    requires InOneMessage(chunk, proto)
    ensures |chunk| <= MaxPayload(proto)
  {}

  /** From a quiet chain, whatever the last service sends next can reach the client, across any number of proxies. */
  lemma ReplyCanReachClient(spec: seq<string>, actions: seq<Action>, chunk: seq<byte>) returns (more: seq<Action>)
    requires var s := Exec(spec, actions); Quiet(s) && InOneMessage(chunk, OwnProto(s.nodes[|s.nodes| - 1]))
    ensures Quiet(Exec(spec, more)) && Exec(spec, more).clientIn == Exec(spec, actions).clientIn + chunk
  {
    Reachable(spec, actions);
    var s := Exec(spec, actions);
    OpenAndPaired(s);
    hide Inv, Quiet, Step, Returning, Exec;
    LastTurn(s);
    var last := |s.nodes| - 1;
    ChunkFits(chunk, s.nodes[last].turn.proto);
    StartBack(s, chunk);
    ExecTwo(spec, actions, At(last, ServRead(chunk)), At(last, ServSend));
    more := CarryBack(spec, actions + [At(last, ServRead(chunk))] + [At(last, ServSend)], last, chunk);
  }

  /** Node j relays and its input stream is intact, with nothing in flight backwards. */
  ghost predicate NothingBack(s: State, j: nat)
    requires Paired(s) && j < |s.nodes|
  {
    s.nodes[j].phase.Relay? && !s.links[j].reset && Drained(s.links[j].bwd)
  }

  /** As Quiet, but for one data message waiting on its way forward at the lower end of stream i. */
  ghost predicate Advancing(s: State, i: nat, chunk: seq<byte>) {
    NothingHeld(s) && s.src.Open? && i < |s.nodes| &&
    (forall j :: 0 <= j < |s.nodes| ==> NothingBack(s, j) && (j != i ==> Drained(s.links[j].fwd))) &&
    s.links[i].fwd.got + 1 == |s.links[i].fwd.log| && s.links[i].fwd.log[s.links[i].fwd.got] == Data(chunk)
  }

  lemma StartAtClient(s: State, chunk: seq<byte>)
    requires Quiet(s) && s.spec != [] && InOneMessage(chunk, s.spec[0])
    ensures var s' := Step(Step(s, ClientRead(chunk)), ClientSend); Advancing(s', 0, chunk) && s'.nodes == s.nodes
  {
    ChunkFits(chunk, s.spec[0]);
    hide MaxPayload;
    var s' := Step(Step(s, ClientRead(chunk)), ClientSend);
    forall j | 0 <= j < |s'.nodes|
      ensures NothingBack(s', j) && (j != 0 ==> Drained(s'.links[j].fwd))
    {
      assert Relaying(s, j);
    }
  }

  lemma StartAtService(s: State, i: nat, chunk: seq<byte>)
    requires Quiet(s) && 0 < i < |s.nodes| && s.nodes[i - 1].turn.Mid?
    requires InOneMessage(chunk, s.nodes[i - 1].turn.proto)
    ensures var s' := Step(Step(s, At(i - 1, ServRead(chunk))), At(i - 1, ServSend));
            Advancing(s', i, chunk) && |s'.nodes| == |s.nodes| && s'.nodes[i] == s.nodes[i]
  {
    var v := ViewOf(s, i - 1);
    ChunkFits(chunk, v.node.turn.proto);
    hide MaxPayload;
    var read := Step(s, At(i - 1, ServRead(chunk)));
    assert read == Update(s, i - 1, DoServRead(v, chunk));
    assert read.links == s.links;
    assert ViewOf(read, i - 1) == DoServRead(v, chunk);
    var s' := Step(read, At(i - 1, ServSend));
    forall j | 0 <= j < |s'.nodes|
      ensures NothingBack(s', j) && (j != i ==> Drained(s'.links[j].fwd))
    {
      assert Relaying(s, j);
    }
  }

  lemma Reaches(s: State, i: nat, chunk: seq<byte>)
    requires Advancing(s, i, chunk)
    ensures var s' := Step(Step(s, At(i, ServGet)), At(i, ServWrite(|chunk|)));
            Quiet(s') && |s'.nodes| == |s.nodes| && s'.nodes[i].servIn == s.nodes[i].servIn + chunk
  {
    var v := ViewOf(s, i);
    var got := Step(s, At(i, ServGet));
    assert got == Update(s, i, DoServGet(v));
    assert ViewOf(got, i) == DoServGet(v);
    assert chunk[..|chunk|] == chunk;
    var s' := Step(got, At(i, ServWrite(|chunk|)));
    forall j | 0 <= j < |s'.nodes|
      ensures Relaying(s', j) && Drained(s'.links[j].bwd)
    {
      assert NothingBack(s, j);
    }
  }

  /** Likewise whatever the client sends, or a service but the last, can reach the next service. */
  lemma ChunkCanReachNextService(spec: seq<string>, actions: seq<Action>, i: nat, chunk: seq<byte>)
      returns (more: seq<Action>)
    requires var s := Exec(spec, actions); Quiet(s) && i < |s.nodes| && s.spec != []
    requires var s := Exec(spec, actions); InOneMessage(chunk, if i == 0 then s.spec[0] else OwnProto(s.nodes[i - 1]))
    ensures var s := Exec(spec, more);
            Quiet(s) && i < |s.nodes| && s.nodes[i].servIn == Exec(spec, actions).nodes[i].servIn + chunk
  {
    Reachable(spec, actions);
    var s := Exec(spec, actions);
    if i > 0 { MiddleTurn(s, i - 1); }
    var a := if i == 0 then ClientRead(chunk) else At(i - 1, ServRead(chunk));
    var b := if i == 0 then ClientSend else At(i - 1, ServSend);
    ExecTwo(spec, actions, a, b);
    var sent := actions + [a] + [b];
    if i == 0 { StartAtClient(s, chunk); } else { StartAtService(s, i, chunk); }
    ExecTwo(spec, sent, At(i, ServGet), At(i, ServWrite(|chunk|)));
    Reaches(Exec(spec, sent), i, chunk);
    more := sent + [At(i, ServGet)] + [At(i, ServWrite(|chunk|))];
  }
}
