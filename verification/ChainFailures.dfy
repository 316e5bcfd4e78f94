/** What the chain does when something is refused, lost or not meant for it, in any state whatever. */
module ChainFailures {
  import opened Common
  import opened ChainSpec
  import opened ChainProtocol
  import opened ChainInvariant
  import opened ChainSafety
  import opened ChainCompletion

  /** The state after any sequence of actions from s. */
  function Then(s: State, actions: seq<Action>): State {
    if actions == [] then s else Step(Then(s, actions[..|actions| - 1]), actions[|actions| - 1])
  }

  /** A local act changes the input stream from below, the output stream from above, and nothing else. */
  lemma ActFrame(v: View, a: LocalAct)
    ensures var v' := Act(v, a);
            && ChangedBelow(v.inL, v'.inL) && (v'.out.Some? <==> v.out.Some?)
            && (v.out.Some? ==> ChangedAbove(v.out.value, v'.out.value))
            && v'.node.service == v.node.service
  {
    hide TurnOf, IsProto, Extend, MaxPayload;
  }

  /** Whoever has stopped does nothing more. */
  lemma StoppedStays(v: View, a: LocalAct)
    requires v.node.phase.Stopped?
    ensures Act(v, a) == v
  {}

  // --- A request that does not name this service ---

  /** Waiting, with a request that does not name its service ready to be read. */
  predicate Stranger(n: Node, l: Link) {
    && n.phase.Waiting? && l.fwd.Ready() && l.fwd.log[l.fwd.got].SetupRequest?
    && (n.service !in l.fwd.log[l.fwd.got].spec || IsProto(n.service))
  }

  lemma StrangerActs(v: View, a: LocalAct)
    requires Stranger(v.node, v.inL)
    ensures var v' := Act(v, a);
            if a.Receive? then
              v' == v.(node := v'.node, inL := v.inL.(fwd := v.inL.fwd.Take())) && v'.node.phase.Stopped?
            else if a.Quit? then v' == v.(node := v.node.(phase := Stopped))
            else v' == v
  {
    NotFoundIffUnnamed(v.inL.fwd.log[v.inL.fwd.got].spec, v.node.service);
    hide TurnOf, IsProto;
  }

  /** Node i is such a stranger, or has stopped, and its streams carry nothing from it. */
  ghost predicate Silent(s: State, i: nat, bwd: seq<Msg>, fwd: Option<seq<Msg>>) {
    && Paired(s) && i < |s.nodes| && (s.nodes[i].phase.Stopped? || Stranger(s.nodes[i], s.links[i]))
    && s.links[i].bwd.log == bwd
    && (if fwd.Some? then i + 1 < |s.links| && s.links[i + 1].fwd.log == fwd.value else i + 1 == |s.links|)
  }

  lemma SilentAt(s: State, i: nat, bwd: seq<Msg>, fwd: Option<seq<Msg>>, j: nat, act: LocalAct)
    requires Silent(s, i, bwd, fwd) && j < |s.nodes|
    ensures Silent(Update(s, j, Act(ViewOf(s, j), act)), i, bwd, fwd)
  {
    var v := ViewOf(s, j);
    ActFrame(v, act);
    if j == i {
      if v.node.phase.Stopped? { StoppedStays(v, act); } else { StrangerActs(v, act); }
    }
    hide Act;
  }

  lemma SilentStep(s: State, i: nat, bwd: seq<Msg>, fwd: Option<seq<Msg>>, a: Action)
    requires Silent(s, i, bwd, fwd)
    ensures Silent(Step(s, a), i, bwd, fwd)
  {
    if a.At? {
      if a.i < |s.nodes| { SilentAt(s, i, bwd, fwd, a.i, a.act); }
    } else {
      hide IsProto, MaxPayload, NewLink;
    }
  }

  lemma {:induction false} SilentRun(s: State, i: nat, bwd: seq<Msg>, fwd: Option<seq<Msg>>, actions: seq<Action>)
    requires Silent(s, i, bwd, fwd)
    ensures Silent(Then(s, actions), i, bwd, fwd)
  {
    hide Silent, Step;
    if actions != [] {
      var m := |actions| - 1;
      SilentRun(s, i, bwd, fwd, actions[..m]);
      SilentStep(Then(s, actions[..m]), i, bwd, fwd, actions[m]);
    }
  }

  /**
   * A handler whose service the request does not name stops when it reads the request, and whatever
   * anybody does, it sends nothing on either stream and dials nobody.
   */
  lemma StrangerIsSilent(s: State, i: nat, actions: seq<Action>)
    requires Paired(s) && i + 1 == |s.nodes| && Stranger(s.nodes[i], s.links[i])
    ensures Step(s, At(i, Receive)).nodes[i].phase.Stopped?
    ensures var s' := Then(s, actions);
            && Paired(s') && |s'.nodes| == |s.nodes| && s'.links[i].bwd.log == s.links[i].bwd.log
            && (s'.nodes[i].phase.Stopped? || s'.nodes[i].phase.Waiting?)
  {
    StrangerActs(ViewOf(s, i), Receive);
    SilentRun(s, i, s.links[i].bwd.log, None, actions);
    hide Act, Then;
  }

  // --- Refused and lost ---

  /** A specification that does not begin with a transport, or has nothing behind it, reaches nobody. */
  lemma BadSpecReachesNobody(spec: seq<string>, actions: seq<Action>, lost: bool)
    requires |spec| < 2 || !IsProto(spec[0])
    ensures Exec(spec, actions).nodes == [] && Step(Init(spec), Dial(lost)).src.Failed?
  {
    Reachable(spec, actions);
    hide Exec, ViewOk;
  }

  /** A chain opens only if every request was sent and read. */
  lemma OpensOnlyIfAllRead(spec: seq<string>, actions: seq<Action>, i: nat)
    requires Exec(spec, actions).src.Open? && i < |Exec(spec, actions).links|
    ensures var l := Exec(spec, actions).links[i];
            l.fwd.got > 0 && l.fwd.log != [] && l.fwd.log[0] == SetupRequest(spec)
  {
    var s := Exec(spec, actions);
    Reachable(spec, actions);
    hide Exec;
    OpenIsAcked(s);
    NodeFacts(s, i);
    hide Payload, TurnOf, BytesOk, ReverseChain;
    assert Acked(s, i);
  }

  /**
   * Failures on the way: a handler that cannot pass the request on stops; so does the last handler when
   * it cannot acknowledge; a middle handler that cannot pass the ACK on relays all the same. Without a
   * transport of its own either stops.
   */
  lemma FailedSends(s: State, i: nat)
    requires Paired(s) && i < |s.nodes|
    ensures var n := s.nodes[i];
            n.phase.Turned? && n.turn.Mid? && i + 1 == |s.nodes| ==>
              var s' := Step(s, Forward(i, true));
              && s'.nodes[i].phase.Stopped? && |s'.links| == |s.links| + 1
              && s'.links[i + 1].fwd.log == [] && s'.links[i + 1].reset
    ensures var n := s.nodes[i];
            var s' := Step(s, At(i, SendAck));
            s.links[i].reset ==>
              && s'.links[i].bwd.log == s.links[i].bwd.log
              && (n.phase.Turned? && n.turn.End? ==> s'.nodes[i].phase.Stopped?)
              && (n.phase.Acking? && n.turn.Mid? && IsProto(n.turn.proto) ==> s'.nodes[i].phase.Relay?)
    ensures var n := s.nodes[i];
            (n.phase.Acking? || n.phase.Turned?) && n.turn.End? && !IsProto(n.turn.proto) ==>
              Step(s, At(i, SendAck)).nodes[i].phase.Stopped?
    ensures var n := s.nodes[i];
            n.phase.Acking? && n.turn.Mid? && !IsProto(n.turn.proto) ==> Step(s, At(i, SendAck)).nodes[i].phase.Stopped?
  {
    hide TurnOf, Extend, IsProto;
  }

  /** Nothing more is put on a stream that has been reset. */
  ghost predicate Frozen(s: State, i: nat, fwd: seq<Msg>, bwd: seq<Msg>) {
    Paired(s) && i < |s.links| && s.links[i].reset && s.links[i].fwd.log == fwd && s.links[i].bwd.log == bwd
  }

  lemma ActRespectsReset(v: View, a: LocalAct)
    ensures var v' := Act(v, a);
            && (v.inL.reset ==> v'.inL.bwd.log == v.inL.bwd.log)
            && (v.out.Some? && v.out.value.reset ==> v'.out.value.fwd.log == v.out.value.fwd.log)
  {
    hide TurnOf, IsProto, Extend, MaxPayload;
  }

  lemma FrozenStep(s: State, i: nat, fwd: seq<Msg>, bwd: seq<Msg>, a: Action)
    requires Frozen(s, i, fwd, bwd)
    ensures Frozen(Step(s, a), i, fwd, bwd)
  {
    if a.At? {
      if a.i < |s.nodes| {
        ActFrame(ViewOf(s, a.i), a.act);
        ActRespectsReset(ViewOf(s, a.i), a.act);
      }
      hide Act;
    } else {
      hide IsProto, MaxPayload, NewLink;
    }
  }

  lemma {:induction false} FrozenRun(s: State, i: nat, fwd: seq<Msg>, bwd: seq<Msg>, actions: seq<Action>)
    requires Frozen(s, i, fwd, bwd)
    ensures Frozen(Then(s, actions), i, fwd, bwd)
  {
    hide Frozen, Step;
    if actions != [] {
      var m := |actions| - 1;
      FrozenRun(s, i, fwd, bwd, actions[..m]);
      FrozenStep(Then(s, actions[..m]), i, fwd, bwd, actions[m]);
    }
  }

  /** Once reset, a stream stays reset and carries no further message in either direction. */
  lemma ResetIsFinal(s: State, i: nat, actions: seq<Action>)
    requires Paired(s) && i < |s.links|
    ensures var (l, s') := (s.links[i], Then(Step(s, Reset(i)), actions));
            i < |s'.links| && s'.links[i].reset && s'.links[i].fwd.log == l.fwd.log && s'.links[i].bwd.log == l.bwd.log
  {
    FrozenRun(Step(s, Reset(i)), i, s.links[i].fwd.log, s.links[i].bwd.log, actions);
  }

  /** A source that has given up stays that way: it opens nothing, reads nothing and writes nothing. */
  lemma {:induction false} GivenUp(s: State, actions: seq<Action>)
    requires !s.src.Open?
    ensures var s' := Then(Step(s, SrcFail), actions);
            s'.src.Failed? && s'.clientIn == s.clientIn && s'.clientOut == s.clientOut
  {
    if actions != [] {
      GivenUp(s, actions[..|actions| - 1]);
      hide Act, IsProto, MaxPayload, NewLink, DoForward;
    }
  }

  /** A handler that has quit has stopped, and leaves its streams as they were. */
  lemma QuitStops(s: State, i: nat)
    requires Paired(s) && i < |s.nodes|
    ensures var s' := Step(s, At(i, Quit));
            s' == s.(nodes := s.nodes[i := s.nodes[i].(phase := Stopped)])
  {
    var v := ViewOf(s, i);
    assert s.links[i := s.links[i]] == s.links;
    assert i + 1 < |s.links| ==> s.links[i + 1 := s.links[i + 1]] == s.links;
  }

  // --- The forwarders of one handler ---

  /** A node with `mine`'s own data for the forwarder that does act, and `others`' for the two others. */
  function WithOthers(act: LocalAct, mine: Node, others: Node): Node {
    var n := others.(service := mine.service, turn := mine.turn, phase := mine.phase);
    match act
    case ServGet => n.(toServ := mine.toServ, servIn := mine.servIn)
    case ServWrite(_) => n.(toServ := mine.toServ, servIn := mine.servIn)
    case ServRead(_) => n.(fromServ := mine.fromServ, servOut := mine.servOut)
    case ServSend => n.(fromServ := mine.fromServ, servOut := mine.servOut)
    case BackGet => n.(back := mine.back)
    case BackSend => n.(back := mine.back)
    case _ => mine
  }

  /** Whatever the other two forwarders hold, a forwarder does the same, and leaves what they hold alone. */
  lemma ForwardersIndependent(v: View, others: Node, act: LocalAct)
    ensures var v' := Act(v, act);
            Act(v.(node := WithOthers(act, v.node, others)), act)
              == v'.(node := WithOthers(act, v'.node, others))
  {
    hide TurnOf, Extend, IsProto, MaxPayload;
  }

  /** The source's two forwarders do not wait for each other either. */
  lemma ClientForwardersIndependent(s: State, up: Option<seq<byte>>, down: Option<seq<byte>>, n: nat, chunk: seq<byte>)
    ensures Step(s.(down := down), ClientRead(chunk)) == Step(s, ClientRead(chunk)).(down := down)
    ensures Step(s.(down := down), ClientSend) == Step(s, ClientSend).(down := down)
    ensures Step(s.(up := up), ClientGet) == Step(s, ClientGet).(up := up)
    ensures Step(s.(up := up), ClientWrite(n)) == Step(s, ClientWrite(n)).(up := up)
  {}

  /** A connection may take any part of what is held for it, and the rest is kept. */
  lemma WritesMayBePartial(s: State, i: nat, n: nat)
    requires Paired(s)
    ensures i < |s.nodes| && s.nodes[i].phase.Relay? && s.nodes[i].toServ.Some? && n <= |s.nodes[i].toServ.value| ==>
              var (b, m) := (s.nodes[i].toServ.value, Step(s, At(i, ServWrite(n))).nodes[i]);
              m.servIn == s.nodes[i].servIn + b[..n] && Held(m.toServ) == b[n..]
    ensures s.src.Open? && s.down.Some? && n <= |s.down.value| ==>
              var (b, s') := (s.down.value, Step(s, ClientWrite(n)));
              s'.clientIn == s.clientIn + b[..n] && Held(s'.down) == b[n..]
  {}

  /** What is read at once from a service or the client fits the transport: no more, and all of that. */
  lemma ReadsFit(v: View, chunk: seq<byte>)
    requires v.node.phase.Relay? && !v.node.turn.NotFound? && v.node.fromServ.None? && IsProto(v.node.turn.proto)
    ensures Act(v, ServRead(chunk)) != v <==> InOneMessage(chunk, v.node.turn.proto)
  {}

  lemma ClientReadsFit(s: State, chunk: seq<byte>)
    requires s.src.Open? && s.up.None? && s.spec != [] && IsProto(s.spec[0])
    ensures Step(s, ClientRead(chunk)) != s <==> InOneMessage(chunk, s.spec[0])
  {}
}
