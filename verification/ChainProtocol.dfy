/**
 * Chain setup and relay as one transition system: the source proxy, one node for every invocation of
 * the setup handler, and one stream between neighbours. Any stream may be reset, and any handler may
 * give up, at any time.
 */
module ChainProtocol {
  import opened Common
  import opened ChainSpec

  const REV_CHAIN_MSG_PREFIX := "Reverse chain: "

  datatype Msg =
    | Error(text: string)
    | SetupRequest(spec: seq<string>)
    | SetupACK(debug: string)
    | Data(bytes: seq<byte>)

  /** One direction of a stream: everything sent so far, and how much of it has been received. */
  datatype Chan = Chan(log: seq<Msg>, got: nat) {
    predicate Ready() {
      got < |log|
    }

    function Take(): Chan {
      this.(got := got + 1)
    }

    function Put(m: Msg): Chan {
      this.(log := log + [m])
    }

    function Received(): seq<Msg> {
      if got <= |log| then log[..got] else log
    }

    /** What has been sent and not received. */
    function Unread(): seq<Msg> {
      if got <= |log| then log[got..] else []
    }
  }

  datatype Link = Link(fwd: Chan, bwd: Chan, reset: bool)

  const SILENT := Chan([], 0)

  datatype Phase =
    | Waiting               // for a SetupRequest
    | Turned                // request read and scanned
    | AwaitAck              // request passed on
    | Acking(debug: string) // ACK received from downstream
    | Relay
    | Stopped

  /** One handler invocation, its connection to the local service and the data its forwarders hold. */
  datatype Node = Node(
    service: string, turn: Turn, phase: Phase,
    toServ: Option<seq<byte>>, servIn: seq<byte>,
    servOut: seq<byte>, fromServ: Option<seq<byte>>,
    back: Option<seq<byte>>)

  function NewNode(service: string): Node {
    Node(service, NotFound, Waiting, None, [], [], None, None)
  }

  datatype Source = Idle | Dialled | Open(debug: string) | Failed

  datatype State = State(
    spec: seq<string>, src: Source,
    clientOut: seq<byte>, up: Option<seq<byte>>,
    down: Option<seq<byte>>, clientIn: seq<byte>,
    nodes: seq<Node>, links: seq<Link>)

  const MAX_TCP_TUNNEL_PAYLOAD := 0xffff - 20 - 20
  const MAX_UDP_TUNNEL_PAYLOAD := 0xffff - 8 - 20

  function MaxPayload(proto: string): nat {
    if proto == "tcp" then MAX_TCP_TUNNEL_PAYLOAD else MAX_UDP_TUNNEL_PAYLOAD
  }

  function Held(b: Option<seq<byte>>): seq<byte> {
    if b.Some? then b.value else []
  }

  // --- The steps ---

  datatype LocalAct =
    | Receive | GetAck | SendAck | Quit
    | ServGet | ServWrite(n: nat) | ServRead(chunk: seq<byte>) | ServSend
    | BackGet | BackSend

  datatype Action =
    | Dial(lost: bool) | SrcAck | SrcFail
    | ClientRead(chunk: seq<byte>) | ClientSend | ClientGet | ClientWrite(n: nat)
    | Forward(i: nat, lost: bool)
    | At(i: nat, act: LocalAct)
    | Reset(i: nat)

  /** What one node can see and change: itself, its input stream and its output stream. */
  datatype View = View(node: Node, inL: Link, out: Option<Link>)

  function AfterAck(t: Turn): Phase {
    if (t.Mid? || t.End?) && IsProto(t.proto) then Relay else Stopped
  }

  function Extend(debug: string, service: string): string {
    if REV_CHAIN_MSG_PREFIX <= debug then debug + " " + service else debug
  }

  function Enter(v: View, p: Phase): View {
    v.(node := v.node.(phase := p))
  }

  /** receiveSetupRequest and the scan. */
  function DoReceive(v: View): View {
    if v.node.phase.Waiting? && v.inL.fwd.Ready() then
      var m := v.inL.fwd.log[v.inL.fwd.got];
      var taken := v.(inL := v.inL.(fwd := v.inL.fwd.Take()));
      if m.SetupRequest? then
        var t := TurnOf(m.spec, v.node.service);
        taken.(node := v.node.(turn := t, phase := if t.NotFound? then Stopped else Turned))
      else Enter(taken, Stopped)
    else v
  }

  /** receiveSetupACK on the output stream. */
  function DoGetAck(v: View): View {
    if v.node.phase.AwaitAck? && v.out.Some? && v.out.value.bwd.Ready() then
      var o := v.out.value;
      var m := o.bwd.log[o.bwd.got];
      var taken := v.(out := Some(o.(bwd := o.bwd.Take())));
      Enter(taken, if m.SetupACK? then Acking(m.debug) else Stopped)
    else v
  }

  /** sendSetupACK: the last proxy stops when it fails, a middle proxy relays all the same. */
  function DoSendAck(v: View): View {
    if v.node.phase.Turned? && v.node.turn.End? then
      if v.inL.reset then Enter(v, Stopped)
      else
        var ack := SetupACK(REV_CHAIN_MSG_PREFIX + v.node.service);
        Enter(v.(inL := v.inL.(bwd := v.inL.bwd.Put(ack))), AfterAck(v.node.turn))
    else if v.node.phase.Acking? then
      var ack := SetupACK(Extend(v.node.phase.debug, v.node.service));
      var sent := if v.inL.reset then v else v.(inL := v.inL.(bwd := v.inL.bwd.Put(ack)));
      Enter(sent, AfterAck(v.node.turn))
    else v
  }

  /** Input stream to service connection: receiveData, then Write piece by piece. */
  function DoServGet(v: View): View {
    if v.node.phase.Relay? && v.node.toServ.None? && v.inL.fwd.Ready() then
      var m := v.inL.fwd.log[v.inL.fwd.got];
      var taken := v.(inL := v.inL.(fwd := v.inL.fwd.Take()));
      if m.Data? then taken.(node := v.node.(toServ := Some(m.bytes))) else Enter(taken, Stopped)
    else v
  }

  function DoServWrite(v: View, n: nat): View {
    if v.node.phase.Relay? && v.node.toServ.Some? && n <= |v.node.toServ.value| then
      var b := v.node.toServ.value;
      v.(node := v.node.(servIn := v.node.servIn + b[..n], toServ := if n == |b| then None else Some(b[n..])))
    else v
  }

  /** Service connection to output stream, or back to the input stream at the end of the chain. */
  function DoServRead(v: View, chunk: seq<byte>): View {
    if v.node.phase.Relay? && !v.node.turn.NotFound? && v.node.fromServ.None?
       && |chunk| <= MaxPayload(v.node.turn.proto) then
      v.(node := v.node.(servOut := v.node.servOut + chunk, fromServ := Some(chunk)))
    else v
  }

  function DoServSend(v: View): View {
    if v.node.phase.Relay? && v.node.fromServ.Some? then
      var m := Data(v.node.fromServ.value);
      var rest := v.node.(fromServ := None);
      if v.node.turn.End? && !v.inL.reset then
        v.(node := rest, inL := v.inL.(bwd := v.inL.bwd.Put(m)))
      else if v.node.turn.Mid? && v.out.Some? && !v.out.value.reset then
        v.(node := rest, out := Some(v.out.value.(fwd := v.out.value.fwd.Put(m))))
      else v
    else v
  }

  /** fwdStream2Stream: output stream straight back to the input stream. */
  function DoBackGet(v: View): View {
    if v.node.phase.Relay? && v.node.turn.Mid? && v.node.back.None? && v.out.Some? && v.out.value.bwd.Ready() then
      var o := v.out.value;
      var m := o.bwd.log[o.bwd.got];
      var taken := v.(out := Some(o.(bwd := o.bwd.Take())));
      if m.Data? then taken.(node := v.node.(back := Some(m.bytes))) else Enter(taken, Stopped)
    else v
  }

  function DoBackSend(v: View): View {
    if v.node.phase.Relay? && v.node.back.Some? && !v.inL.reset then
      View(v.node.(back := None), v.inL.(bwd := v.inL.bwd.Put(Data(v.node.back.value))), v.out)
    else v
  }

  function Act(v: View, a: LocalAct): View {
    match a
    case Receive => DoReceive(v)
    case GetAck => DoGetAck(v)
    case SendAck => DoSendAck(v)
    case Quit => Enter(v, Stopped)
    case ServGet => DoServGet(v)
    case ServWrite(n) => DoServWrite(v, n)
    case ServRead(chunk) => DoServRead(v, chunk)
    case ServSend => DoServSend(v)
    case BackGet => DoBackGet(v)
    case BackSend => DoBackSend(v)
  }

  predicate Paired(s: State) {
    |s.links| == |s.nodes|
  }

  function OutOf(s: State, i: nat): Option<Link> {
    if i + 1 < |s.links| then Some(s.links[i + 1]) else None
  }

  function NextOf(s: State, i: nat): Option<string> {
    if i + 1 < |s.nodes| then Some(s.nodes[i + 1].service) else None
  }

  function ViewOf(s: State, i: nat): View
    requires Paired(s) && i < |s.nodes|
  {
    View(s.nodes[i], s.links[i], OutOf(s, i))
  }

  function Update(s: State, i: nat, v: View): State
    requires Paired(s) && i < |s.nodes|
  {
    var links := s.links[i := v.inL];
    s.(nodes := s.nodes[i := v.node],
       links := if v.out.Some? && i + 1 < |links| then links[i + 1 := v.out.value] else links)
  }

  /** A stream to the next proxy on which the request was sent, or was lost to a reset. */
  function NewLink(spec: seq<string>, lost: bool): Link {
    Link(if lost then SILENT else SILENT.Put(SetupRequest(spec)), SILENT, lost)
  }

  function DoDial(s: State, lost: bool): State {
    if s.src.Idle? && s.nodes == [] then
      if |s.spec| < 2 || !IsProto(s.spec[0]) then s.(src := Failed)
      else s.(src := Dialled, nodes := [NewNode(s.spec[1])], links := [NewLink(s.spec, lost)])
    else s
  }

  function DoSrcAck(s: State): State {
    if s.src.Dialled? && s.links != [] && s.links[0].bwd.Ready() then
      var l := s.links[0];
      var m := l.bwd.log[l.bwd.got];
      s.(src := if m.SetupACK? then Open(m.debug) else Failed, links := s.links[0 := l.(bwd := l.bwd.Take())])
    else s
  }

  /** The middle proxy dials its successor and passes the request on. */
  function DoForward(s: State, i: nat, lost: bool): State {
    if i + 1 == |s.nodes| == |s.links| && s.nodes[i].phase.Turned? && s.nodes[i].turn.Mid? then
      var moved := s.nodes[i].(phase := if lost then Stopped else AwaitAck);
      s.(nodes := s.nodes[i := moved] + [NewNode(s.nodes[i].turn.next)],
         links := s.links + [NewLink(s.spec, lost)])
    else s
  }

  /** tcpFwdConn2Stream and its like at the source, client connection to first stream. */
  function DoClientRead(s: State, chunk: seq<byte>): State {
    if s.src.Open? && s.up.None? && s.spec != [] && |chunk| <= MaxPayload(s.spec[0]) then
      s.(clientOut := s.clientOut + chunk, up := Some(chunk))
    else s
  }

  function DoClientSend(s: State): State {
    if s.src.Open? && s.up.Some? && s.links != [] && !s.links[0].reset then
      s.(up := None, links := s.links[0 := s.links[0].(fwd := s.links[0].fwd.Put(Data(s.up.value)))])
    else s
  }

  function DoClientGet(s: State): State {
    if s.src.Open? && s.down.None? && s.links != [] && s.links[0].bwd.Ready() then
      var l := s.links[0];
      var m := l.bwd.log[l.bwd.got];
      var taken := s.(links := s.links[0 := l.(bwd := l.bwd.Take())]);
      if m.Data? then taken.(down := Some(m.bytes)) else taken.(src := Failed)
    else s
  }

  function DoClientWrite(s: State, n: nat): State {
    if s.src.Open? && s.down.Some? && n <= |s.down.value| then
      var b := s.down.value;
      s.(clientIn := s.clientIn + b[..n], down := if n == |b| then None else Some(b[n..]))
    else s
  }

  /** One step; an action that is not possible changes nothing. */
  function Step(s: State, a: Action): State {
    match a
    case Dial(lost) => DoDial(s, lost)
    case SrcAck => DoSrcAck(s)
    case SrcFail => if s.src.Idle? || s.src.Dialled? then s.(src := Failed) else s
    case ClientRead(chunk) => DoClientRead(s, chunk)
    case ClientSend => DoClientSend(s)
    case ClientGet => DoClientGet(s)
    case ClientWrite(n) => DoClientWrite(s, n)
    case Forward(i, lost) => DoForward(s, i, lost)
    case At(i, act) => if Paired(s) && i < |s.nodes| then Update(s, i, Act(ViewOf(s, i), act)) else s
    case Reset(i) => if i < |s.links| then s.(links := s.links[i := s.links[i].(reset := true)]) else s
  }

  function Init(spec: seq<string>): State {
    State(spec, Idle, [], None, None, [], [], [])
  }

  /** The state after any sequence of actions. */
  function Exec(spec: seq<string>, actions: seq<Action>): State {
    if actions == [] then Init(spec)
    else Step(Exec(spec, actions[..|actions| - 1]), actions[|actions| - 1])
  }
}
