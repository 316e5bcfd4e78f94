/** What every run of the chain keeps: the invariant, checked one node at a time. */
module ChainInvariant {
  import opened Common
  import opened ChainSpec
  import opened ChainProtocol

  /** The bytes carried by the data messages of a log. */
  function Payload(log: seq<Msg>): seq<byte> {
    if log == [] then []
    else Payload(log[..|log| - 1]) + if log[|log| - 1].Data? then log[|log| - 1].bytes else []
  }

  lemma PayloadPut(log: seq<Msg>, m: Msg)
    ensures Payload(log + [m]) == Payload(log) + if m.Data? then m.bytes else []
  {
    assert (log + [m])[..|log + [m]| - 1] == log;
  }

  lemma PayloadTake(c: Chan)
    requires c.Ready()
    ensures var m := c.log[c.got];
            Payload(c.Take().Received()) == Payload(c.Received()) + if m.Data? then m.bytes else []
  {
    assert c.log[..c.got + 1] == c.log[..c.got] + [c.log[c.got]];
    PayloadPut(c.log[..c.got], c.log[c.got]);
  }

  lemma {:induction false} PayloadConcat(a: seq<Msg>, b: seq<Msg>)
    ensures Payload(a + b) == Payload(a) + Payload(b)
  {
    if b == [] {
      assert a + b == a;
    } else {
      var m := b[|b| - 1];
      assert a + b == (a + b[..|b| - 1]) + [m];
      PayloadPut(a + b[..|b| - 1], m);
      PayloadConcat(a, b[..|b| - 1]);
    }
  }

  /** No payload exceeds MAX_UDP_TUNNEL_PAYLOAD, the larger of the two limits. */
  predicate Fits(bytes: seq<byte>) {
    |bytes| <= MAX_UDP_TUNNEL_PAYLOAD
  }

  /** Forwards a stream carries the request and then only data; backwards an ACK and then only data. */
  ghost predicate LinkOk(spec: seq<string>, l: Link) {
    l.fwd.got <= |l.fwd.log| && l.bwd.got <= |l.bwd.log| &&
    (forall m :: m in l.fwd.log || m in l.bwd.log ==> m.Data? ==> Fits(m.bytes)) &&
    (forall k :: 0 <= k < |l.fwd.log| ==> if k == 0 then l.fwd.log[k] == SetupRequest(spec) else l.fwd.log[k].Data?) &&
    (forall k :: 0 <= k < |l.bwd.log| ==> if k == 0 then l.bwd.log[k].SetupACK? else l.bwd.log[k].Data?)
  }

  /** What a node's phase says about its streams. */
  ghost predicate PhaseOk(spec: seq<string>, v: View, next: Option<string>) {
    var n, inL, out := v.node, v.inL, v.out;
    (out.Some? <==> next.Some?) &&
    (n.phase.Waiting? ==> inL.fwd.got == 0) &&
    n.turn == (if inL.fwd.got == 0 then NotFound else TurnOf(spec, n.service)) &&
    (next.Some? ==> n.turn.Mid? && n.turn.next == next.value && !n.phase.Waiting? && !n.phase.Turned?) &&
    (!n.phase.Waiting? && !n.phase.Stopped? ==> inL.fwd.got >= 1 && !n.turn.NotFound?) &&
    ((n.phase.AwaitAck? || n.phase.Acking? || (n.phase.Relay? && n.turn.Mid?)) ==>
      n.turn.Mid? && out.Some? && out.value.fwd.log != []) &&
    (n.phase.AwaitAck? ==> out.value.bwd.got == 0) &&
    (n.phase.Acking? ==>
      out.value.bwd.got >= 1 && out.value.bwd.log != [] && out.value.bwd.log[0] == SetupACK(n.phase.debug)) &&
    (n.phase.Relay? && n.turn.Mid? ==> out.value.bwd.got >= 1)
  }

  /** When and with what text a node has acknowledged the request. */
  ghost predicate AckOk(v: View) {
    var n, inL, out := v.node, v.inL, v.out;
    (n.phase.Waiting? || n.phase.Turned? || n.phase.AwaitAck? || n.phase.Acking? ==> inL.bwd.log == []) &&
    (n.phase.Relay? ==> inL.bwd.log != [] || inL.reset) &&
    (inL.bwd.log != [] ==>
      inL.fwd.got >= 1 &&
      if n.turn.End? then inL.bwd.log[0] == SetupACK(REV_CHAIN_MSG_PREFIX + n.service)
      else n.turn.Mid? && out.Some? && out.value.bwd.got >= 1
           && out.value.bwd.log != [] && out.value.bwd.log[0].SetupACK?
           && inL.bwd.log[0] == SetupACK(Extend(out.value.bwd.log[0].debug, n.service)))
  }

  /** What a node has sent on behalf of its service. */
  function SentOn(v: View): seq<byte> {
    if v.node.turn.End? then Payload(v.inL.bwd.log)
    else if v.out.Some? then Payload(v.out.value.fwd.log)
    else []
  }

  /** No byte is lost, duplicated or reordered inside a node. */
  ghost predicate BytesOk(v: View) {
    var n, inL, out := v.node, v.inL, v.out;
    n.servIn + Held(n.toServ) == Payload(inL.fwd.Received()) &&
    n.servOut == SentOn(v) + Held(n.fromServ) &&
    (out.Some? ==> Payload(inL.bwd.log) + Held(n.back) == Payload(out.value.bwd.Received())) &&
    (out.None? ==> n.back.None?) && Fits(Held(n.fromServ)) && Fits(Held(n.back))
  }

  ghost predicate ViewOk(spec: seq<string>, v: View, next: Option<string>) {
    LinkOk(spec, v.inL) && (v.out.Some? ==> LinkOk(spec, v.out.value)) &&
    PhaseOk(spec, v, next) && AckOk(v) && BytesOk(v)
  }

  /** A change of a stream by its downstream end, as the upstream end sees it. */
  ghost predicate ChangedBelow(l: Link, l': Link) {
    l'.fwd.log == l.fwd.log && l'.bwd.got == l.bwd.got && l.bwd.log <= l'.bwd.log && (l.reset ==> l'.reset)
  }

  /** A change of a stream by its upstream end, as the downstream end sees it. */
  ghost predicate ChangedAbove(l: Link, l': Link) {
    l'.bwd.log == l.bwd.log && l'.fwd.got == l.fwd.got && l.fwd.log <= l'.fwd.log && (l.reset ==> l'.reset)
  }

  lemma OutChanged(spec: seq<string>, v: View, next: Option<string>, l': Link)
    requires ViewOk(spec, v, next) && v.out.Some? && ChangedBelow(v.out.value, l') && LinkOk(spec, l')
    ensures ViewOk(spec, v.(out := Some(l')), next)
  {
    hide Payload, TurnOf;
    var l := v.out.value;
    assert l'.bwd.log[..l.bwd.got] == l.bwd.log[..l.bwd.got];
  }

  lemma InChanged(spec: seq<string>, v: View, next: Option<string>, l': Link)
    requires ViewOk(spec, v, next) && ChangedAbove(v.inL, l') && LinkOk(spec, l')
    ensures ViewOk(spec, v.(inL := l'), next)
  {
    hide Payload, TurnOf;
    assert l'.fwd.log[..v.inL.fwd.got] == v.inL.fwd.log[..v.inL.fwd.got];
  }

  /** A local act leaves the node's own view good and its neighbours' views undisturbed. */
  ghost predicate GoodAct(spec: seq<string>, v: View, v': View, next: Option<string>) {
    ViewOk(spec, v', next) && v'.node.service == v.node.service &&
    ChangedBelow(v.inL, v'.inL) && (v'.out.Some? <==> v.out.Some?) &&
    (v.out.Some? ==> ChangedAbove(v.out.value, v'.out.value))
  }

  lemma EmptyPayload()
    ensures Payload([]) == []
  {}

  lemma ReceiveGood(spec: seq<string>, v: View, next: Option<string>)
    requires ViewOk(spec, v, next)
    ensures GoodAct(spec, v, DoReceive(v), next)
  {
    hide Payload, TurnOf;
    if v.node.phase.Waiting? && v.inL.fwd.Ready() {
      PayloadTake(v.inL.fwd);
      assert Payload(v.inL.bwd.log) == [] by { EmptyPayload(); }
    }
  }

  lemma GetAckGood(spec: seq<string>, v: View, next: Option<string>)
    requires ViewOk(spec, v, next)
    ensures GoodAct(spec, v, DoGetAck(v), next)
  {
    hide Payload, TurnOf;
    if v.node.phase.AwaitAck? && v.out.Some? && v.out.value.bwd.Ready() {
      PayloadTake(v.out.value.bwd);
    }
  }

  lemma FirstPut(c: Chan, m: Msg)
    requires c.log == [] && !m.Data?
    ensures c.Put(m).log == [m] && Payload(c.Put(m).log) == Payload(c.log) == []
  {
    PayloadPut(c.log, m);
    EmptyPayload();
  }

  lemma AckLinkOk(spec: seq<string>, l: Link, text: string)
    requires LinkOk(spec, l) && l.bwd.log == []
    ensures LinkOk(spec, l.(bwd := l.bwd.Put(SetupACK(text))))
  {}

  /** Sending this ACK is this node's turn, and it enters a phase that follows it. */
  ghost predicate AckDue(v: View, text: string, p: Phase) {
    (p.Relay? || p.Stopped?) && v.inL.bwd.log == [] &&
    if v.node.phase.Turned? then v.node.turn.End? && text == REV_CHAIN_MSG_PREFIX + v.node.service
    else v.node.phase.Acking? && text == Extend(v.node.phase.debug, v.node.service)
  }

  function Acknowledged(v: View, text: string, p: Phase): View {
    Enter(v.(inL := v.inL.(bwd := v.inL.bwd.Put(SetupACK(text)))), p)
  }

  lemma AckPhase(spec: seq<string>, v: View, next: Option<string>, text: string, p: Phase)
    requires PhaseOk(spec, v, next) && AckDue(v, text, p)
    ensures PhaseOk(spec, Acknowledged(v, text, p), next)
  {
    hide TurnOf, Extend;
  }

  lemma AckText(spec: seq<string>, v: View, next: Option<string>, text: string, p: Phase)
    requires PhaseOk(spec, v, next) && AckDue(v, text, p)
    ensures AckOk(Acknowledged(v, text, p))
  {
    FirstPut(v.inL.bwd, SetupACK(text));
    hide TurnOf, Extend, Payload;
  }

  lemma AckBytes(v: View, text: string, p: Phase)
    requires BytesOk(v) && AckDue(v, text, p)
    ensures BytesOk(Acknowledged(v, text, p))
  {
    FirstPut(v.inL.bwd, SetupACK(text));
    hide Extend, Payload;
  }

  lemma AckPut(spec: seq<string>, v: View, next: Option<string>, text: string, p: Phase)
    requires ViewOk(spec, v, next) && AckDue(v, text, p)
    ensures GoodAct(spec, v, Acknowledged(v, text, p), next)
  {
    AckPhase(spec, v, next, text, p);
    AckText(spec, v, next, text, p);
    AckBytes(v, text, p);
    AckLinkOk(spec, v.inL, text);
    hide LinkOk, PhaseOk, AckOk, BytesOk, AckDue;
  }

  lemma NotYetAcked(spec: seq<string>, v: View, next: Option<string>)
    requires ViewOk(spec, v, next) && (v.node.phase.Turned? || v.node.phase.Acking?)
    ensures v.inL.bwd.log == []
  {}

  lemma AckLost(spec: seq<string>, v: View, next: Option<string>, p: Phase)
    requires ViewOk(spec, v, next) && v.inL.reset && (p.Stopped? || (p.Relay? && v.node.phase.Acking?))
    ensures GoodAct(spec, v, Enter(v, p), next)
  {
    hide Payload, TurnOf, Extend;
  }

  lemma SendAckGood(spec: seq<string>, v: View, next: Option<string>)
    requires ViewOk(spec, v, next)
    ensures GoodAct(spec, v, DoSendAck(v), next)
  {
    hide ViewOk, Extend, IsProto;
    if v.node.phase.Turned? || v.node.phase.Acking? { NotYetAcked(spec, v, next); }
    var p := AfterAck(v.node.turn);
    if v.node.phase.Turned? && v.node.turn.End? {
      if v.inL.reset {
        AckLost(spec, v, next, Stopped);
      } else {
        AckPut(spec, v, next, REV_CHAIN_MSG_PREFIX + v.node.service, p);
      }
    } else if v.node.phase.Acking? {
      if v.inL.reset {
        AckLost(spec, v, next, p);
      } else {
        AckPut(spec, v, next, Extend(v.node.phase.debug, v.node.service), p);
      }
    }
  }

  lemma ServGetGood(spec: seq<string>, v: View, next: Option<string>)
    requires ViewOk(spec, v, next)
    ensures GoodAct(spec, v, DoServGet(v), next)
  {
    hide Payload, TurnOf;
    if v.node.phase.Relay? && v.node.toServ.None? && v.inL.fwd.Ready() {
      PayloadTake(v.inL.fwd);
    }
  }

  lemma ServWriteGood(spec: seq<string>, v: View, next: Option<string>, n: nat)
    requires ViewOk(spec, v, next)
    ensures GoodAct(spec, v, DoServWrite(v, n), next)
  {
    hide Payload, TurnOf;
    if v.node.toServ.Some? && n <= |v.node.toServ.value| {
      var b := v.node.toServ.value;
      assert v.node.servIn + b[..n] + b[n..] == v.node.servIn + b;
    }
  }

  lemma ServReadGood(spec: seq<string>, v: View, next: Option<string>, chunk: seq<byte>)
    requires ViewOk(spec, v, next)
    ensures GoodAct(spec, v, DoServRead(v, chunk), next)
  {
    hide Payload, TurnOf;
    assert v.node.fromServ.None? ==> SentOn(v) + [] == SentOn(v);
  }

  lemma ServSendGood(spec: seq<string>, v: View, next: Option<string>)
    requires ViewOk(spec, v, next)
    ensures GoodAct(spec, v, DoServSend(v), next)
  {
    hide Payload, TurnOf;
    if v.node.phase.Relay? && v.node.fromServ.Some? {
      PayloadPut(v.inL.bwd.log, Data(v.node.fromServ.value));
      if v.out.Some? { PayloadPut(v.out.value.fwd.log, Data(v.node.fromServ.value)); }
    }
  }

  lemma BackGetGood(spec: seq<string>, v: View, next: Option<string>)
    requires ViewOk(spec, v, next)
    ensures GoodAct(spec, v, DoBackGet(v), next)
  {
    hide Payload, TurnOf;
    if v.node.phase.Relay? && v.node.turn.Mid? && v.out.Some? && v.out.value.bwd.Ready() {
      PayloadTake(v.out.value.bwd);
    }
  }

  lemma BackSendGood(spec: seq<string>, v: View, next: Option<string>)
    requires ViewOk(spec, v, next)
    ensures GoodAct(spec, v, DoBackSend(v), next)
  {
    hide Payload, TurnOf;
    if v.node.back.Some? {
      PayloadPut(v.inL.bwd.log, Data(v.node.back.value));
    }
  }

  lemma QuitGood(spec: seq<string>, v: View, next: Option<string>)
    requires ViewOk(spec, v, next)
    ensures GoodAct(spec, v, Enter(v, Stopped), next)
  {
    hide Payload, TurnOf;
  }

  lemma ActGood(spec: seq<string>, v: View, next: Option<string>, a: LocalAct)
    requires ViewOk(spec, v, next)
    ensures GoodAct(spec, v, Act(v, a), next)
  {
    hide ViewOk, DoReceive, DoGetAck, DoSendAck, DoServGet, DoServWrite, DoServRead, DoServSend, DoBackGet, DoBackSend;
    match a
    case Receive => ReceiveGood(spec, v, next);
    case GetAck => GetAckGood(spec, v, next);
    case SendAck => SendAckGood(spec, v, next);
    case Quit => QuitGood(spec, v, next);
    case ServGet => ServGetGood(spec, v, next);
    case ServWrite(n) => ServWriteGood(spec, v, next, n);
    case ServRead(chunk) => ServReadGood(spec, v, next, chunk);
    case ServSend => ServSendGood(spec, v, next);
    case BackGet => BackGetGood(spec, v, next);
    case BackSend => BackSendGood(spec, v, next);
  }

  // --- The whole system ---

  ghost predicate FirstLinkOk(s: State, l: Link) {
    LinkOk(s.spec, l) &&
    (s.src.Dialled? ==> l.bwd.got == 0) &&
    (s.src.Open? ==> l.bwd.got >= 1 && l.bwd.log != [] && l.bwd.log[0] == SetupACK(s.src.debug)) &&
    s.clientOut == Payload(l.fwd.log) + Held(s.up) && Fits(Held(s.up)) &&
    s.clientIn + Held(s.down) == Payload(l.bwd.Received())
  }

  /** The source's state and the first stream. */
  ghost predicate SourceOk(s: State) {
    (s.src.Idle? ==> s.nodes == []) &&
    (s.nodes == [] ==>
      s.links == [] && (s.src.Idle? || s.src.Failed?) &&
      s.up.None? && s.down.None? && s.clientOut == [] && s.clientIn == []) &&
    (s.nodes != [] ==>
      s.links != [] && |s.spec| >= 2 && IsProto(s.spec[0]) && s.nodes[0].service == s.spec[1] &&
      FirstLinkOk(s, s.links[0]))
  }

  ghost predicate NodesOk(s: State) {
    Paired(s) && forall i :: 0 <= i < |s.nodes| ==> ViewOk(s.spec, ViewOf(s, i), NextOf(s, i))
  }

  ghost predicate Inv(s: State) {
    NodesOk(s) && SourceOk(s)
  }

  lemma FirstLinkBelow(s: State, l: Link, l': Link)
    requires FirstLinkOk(s, l) && ChangedBelow(l, l') && LinkOk(s.spec, l')
    ensures FirstLinkOk(s, l')
  {
    hide Payload;
    assert l'.bwd.log[..l.bwd.got] == l.bwd.log[..l.bwd.got];
  }

  lemma ViewLinks(spec: seq<string>, v: View, next: Option<string>)
    requires ViewOk(spec, v, next)
    ensures LinkOk(spec, v.inL) && (v.out.Some? ==> LinkOk(spec, v.out.value)) && (v.out.Some? <==> next.Some?)
  {}

  /** A good local act keeps every view good: the node's own and both neighbours'. */
  lemma UpdateKeepsNodes(s: State, i: nat, v': View)
    requires NodesOk(s) && i < |s.nodes| && GoodAct(s.spec, ViewOf(s, i), v', NextOf(s, i))
    ensures NodesOk(Update(s, i, v'))
  {
    hide ViewOk;
    var s' := Update(s, i, v');
    ViewLinks(s.spec, v', NextOf(s, i));
    forall k | 0 <= k < |s'.nodes|
      ensures ViewOk(s'.spec, ViewOf(s', k), NextOf(s', k))
    {
      assert NextOf(s', k) == NextOf(s, k);
      var v := ViewOf(s, k);
      if k == i {
        assert ViewOf(s', k) == v';
      } else if k + 1 == i {
        OutChanged(s.spec, v, NextOf(s, k), v'.inL);
        assert ViewOf(s', k) == v.(out := Some(v'.inL));
      } else if k == i + 1 {
        InChanged(s.spec, v, NextOf(s, k), v'.out.value);
        assert ViewOf(s', k) == v.(inL := v'.out.value);
      } else {
        assert ViewOf(s', k) == v;
      }
    }
  }

  lemma FirstLinkSame(s: State, s': State, l: Link)
    requires FirstLinkOk(s, l) && s' == s.(nodes := s'.nodes, links := s'.links)
    ensures FirstLinkOk(s', l)
  {}

  lemma AtKeepsInv(s: State, i: nat, a: LocalAct)
    requires Inv(s) && i < |s.nodes|
    ensures Inv(Update(s, i, Act(ViewOf(s, i), a)))
  {
    hide ViewOk, LinkOk, FirstLinkOk, Act;
    var v' := Act(ViewOf(s, i), a);
    ActGood(s.spec, ViewOf(s, i), NextOf(s, i), a);
    UpdateKeepsNodes(s, i, v');
    ViewLinks(s.spec, v', NextOf(s, i));
    if i == 0 {
      FirstLinkBelow(s, s.links[0], v'.inL);
      FirstLinkSame(s, Update(s, i, v'), v'.inL);
    } else {
      FirstLinkSame(s, Update(s, i, v'), s.links[0]);
    }
  }

  lemma ResetGood(spec: seq<string>, v: View, next: Option<string>)
    requires ViewOk(spec, v, next)
    ensures GoodAct(spec, v, v.(inL := v.inL.(reset := true)), next)
  {
    hide Payload, TurnOf;
  }

  lemma StepReset(s: State, i: nat)
    requires i < |s.links|
    ensures Step(s, Reset(i)) == s.(links := s.links[i := s.links[i].(reset := true)])
  {}

  lemma ResetIsUpdate(s: State, i: nat)
    requires Paired(s) && i < |s.links|
    ensures Step(s, Reset(i)) == Update(s, i, ViewOf(s, i).(inL := s.links[i].(reset := true)))
  {
    assert s.nodes[i := s.nodes[i]] == s.nodes;
    var links := s.links[i := s.links[i].(reset := true)];
    assert i + 1 < |links| ==> links[i + 1 := links[i + 1]] == links;
  }

  lemma ResetKeepsInv(s: State, i: nat)
    requires Inv(s)
    ensures Inv(Step(s, Reset(i)))
  {
    if i < |s.links| {
      StepReset(s, i);
      hide ViewOk, LinkOk, FirstLinkOk, Step;
      var v := ViewOf(s, i);
      var v' := v.(inL := v.inL.(reset := true));
      ResetGood(s.spec, v, NextOf(s, i));
      UpdateKeepsNodes(s, i, v');
      ResetIsUpdate(s, i);
      ViewLinks(s.spec, v', NextOf(s, i));
      if i == 0 { FirstLinkBelow(s, s.links[0], v'.inL); }
      FirstLinkSame(s, Step(s, Reset(i)), Step(s, Reset(i)).links[0]);
    }
  }

  lemma FirstLinkLink(s: State, l: Link)
    requires FirstLinkOk(s, l)
    ensures LinkOk(s.spec, l)
  {}

  /** The source changes the first stream at its upper end. */
  lemma SourceChanged(s: State, s': State)
    requires Inv(s) && s.nodes != [] && s'.nodes == s.nodes && s'.spec == s.spec
    requires |s'.links| == |s.links| && s'.links == s.links[0 := s'.links[0]]
    requires ChangedAbove(s.links[0], s'.links[0]) && FirstLinkOk(s', s'.links[0]) && !s'.src.Idle?
    ensures Inv(s')
  {
    hide ViewOk, FirstLinkOk;
    assert LinkOk(s'.spec, s'.links[0]) by { FirstLinkLink(s', s'.links[0]); }
    forall k | 0 <= k < |s'.nodes|
      ensures ViewOk(s'.spec, ViewOf(s', k), NextOf(s', k))
    {
      assert ViewOk(s.spec, ViewOf(s, k), NextOf(s, k));
      assert NextOf(s', k) == NextOf(s, k);
      if k == 0 {
        InChanged(s.spec, ViewOf(s, 0), NextOf(s, 0), s'.links[0]);
        assert ViewOf(s', 0) == ViewOf(s, 0).(inL := s'.links[0]);
      } else {
        assert ViewOf(s', k) == ViewOf(s, k);
      }
    }
  }

  lemma ClientSendFirst(s: State)
    requires Inv(s) && s.src.Open? && s.up.Some? && s.links != [] && !s.links[0].reset
    ensures FirstLinkOk(DoClientSend(s), DoClientSend(s).links[0])
  {
    hide Payload;
    PayloadPut(s.links[0].fwd.log, Data(s.up.value));
    assert s.links[0].fwd.log != [] by {
      assert ViewOk(s.spec, ViewOf(s, 0), NextOf(s, 0));
    }
  }

  lemma ClientGetFirst(s: State)
    requires Inv(s) && s.src.Open? && s.down.None? && s.links != [] && s.links[0].bwd.Ready()
    ensures FirstLinkOk(DoClientGet(s), DoClientGet(s).links[0]) && DoClientGet(s).src.Open?
  {
    hide Payload;
    PayloadTake(s.links[0].bwd);
  }

  lemma SrcAckFirst(s: State)
    requires Inv(s) && s.src.Dialled? && s.links != [] && s.links[0].bwd.Ready()
    ensures FirstLinkOk(DoSrcAck(s), DoSrcAck(s).links[0]) && DoSrcAck(s).src.Open?
  {
    hide Payload;
    PayloadTake(s.links[0].bwd);
  }

  lemma ClientWriteFirst(s: State, n: nat)
    requires Inv(s) && s.nodes != []
    ensures FirstLinkOk(DoClientWrite(s, n), s.links[0])
  {
    hide Payload;
    if s.down.Some? && n <= |s.down.value| {
      var b := s.down.value;
      assert s.clientIn + b[..n] + b[n..] == s.clientIn + b;
    }
  }

  lemma ClientReadFirst(s: State, chunk: seq<byte>)
    requires Inv(s) && s.nodes != []
    ensures FirstLinkOk(DoClientRead(s, chunk), s.links[0])
  {
    hide Payload;
    assert s.up.None? ==> Payload(s.links[0].fwd.log) + [] == Payload(s.links[0].fwd.log);
  }

  lemma SrcFailFirst(s: State)
    requires Inv(s) && s.nodes != []
    ensures FirstLinkOk(s.(src := Failed), s.links[0])
  {}

  lemma StepIs(s: State, a: Action)
    ensures a.Dial? ==> Step(s, a) == DoDial(s, a.lost)
    ensures a.SrcAck? ==> Step(s, a) == DoSrcAck(s)
    ensures a.SrcFail? ==> Step(s, a) == if s.src.Idle? || s.src.Dialled? then s.(src := Failed) else s
    ensures a.ClientRead? ==> Step(s, a) == DoClientRead(s, a.chunk)
    ensures a.ClientSend? ==> Step(s, a) == DoClientSend(s)
    ensures a.ClientGet? ==> Step(s, a) == DoClientGet(s)
    ensures a.ClientWrite? ==> Step(s, a) == DoClientWrite(s, a.n)
  {}

  /** The source's own steps, once a first proxy has been dialled. */
  lemma SourceKeepsInv(s: State, a: Action)
    requires Inv(s) && !a.At? && !a.Reset? && !a.Forward? && s.nodes != []
    ensures Inv(Step(s, a))
  {
    hide ViewOk, FirstLinkOk, MaxPayload, Step;
    assert s.links == s.links[0 := s.links[0]];
    match a
    case Dial(lost) => assert Step(s, a) == s by { StepIs(s, a); }
    case SrcAck =>
      StepIs(s, a);
      if s.src.Dialled? && s.links[0].bwd.Ready() { SrcAckFirst(s); SourceChanged(s, DoSrcAck(s)); }
    case SrcFail =>
      StepIs(s, a);
      if s.src.Dialled? { SrcFailFirst(s); SourceChanged(s, s.(src := Failed)); }
    case ClientRead(chunk) =>
      StepIs(s, a);
      ClientReadFirst(s, chunk);
      if s.src.Open? { SourceChanged(s, DoClientRead(s, chunk)); }
    case ClientSend =>
      StepIs(s, a);
      if s.src.Open? && s.up.Some? && !s.links[0].reset { ClientSendFirst(s); SourceChanged(s, DoClientSend(s)); }
    case ClientGet =>
      StepIs(s, a);
      if s.src.Open? && s.down.None? && s.links[0].bwd.Ready() { ClientGetFirst(s); SourceChanged(s, DoClientGet(s)); }
    case ClientWrite(n) =>
      StepIs(s, a);
      ClientWriteFirst(s, n);
      if s.src.Open? { SourceChanged(s, DoClientWrite(s, n)); }
  }

  lemma NewViewOk(spec: seq<string>, service: string, lost: bool)
    ensures ViewOk(spec, View(NewNode(service), NewLink(spec, lost), None), None)
    ensures Payload(NewLink(spec, lost).fwd.log) == []
  {
    EmptyPayload();
    if !lost {
      PayloadPut([], SetupRequest(spec));
      assert [] + [SetupRequest(spec)] == [SetupRequest(spec)];
    }
    hide Payload, TurnOf;
  }

  lemma ForwardViewOk(spec: seq<string>, v: View, lost: bool)
    requires ViewOk(spec, v, None) && v.node.phase.Turned? && v.node.turn.Mid?
    ensures ViewOk(spec, View(v.node.(phase := if lost then Stopped else AwaitAck), v.inL, Some(NewLink(spec, lost))),
                   Some(v.node.turn.next))
  {
    NewViewOk(spec, v.node.turn.next, lost);
    EmptyPayload();
    hide Payload, TurnOf, Extend;
    assert v.inL.bwd.log == [];
  }

  lemma ForwardKeepsInv(s: State, i: nat, lost: bool)
    requires Inv(s)
    ensures Inv(DoForward(s, i, lost))
  {
    hide ViewOk, FirstLinkOk, NewLink;
    var s' := DoForward(s, i, lost);
    if i + 1 == |s.nodes| && s.nodes[i].phase.Turned? && s.nodes[i].turn.Mid? {
      assert ViewOk(s.spec, ViewOf(s, i), NextOf(s, i));
      ForwardViewOk(s.spec, ViewOf(s, i), lost);
      NewViewOk(s.spec, s.nodes[i].turn.next, lost);
      forall k | 0 <= k < |s'.nodes|
        ensures ViewOk(s'.spec, ViewOf(s', k), NextOf(s', k))
      {
        if k < i {
          assert ViewOk(s.spec, ViewOf(s, k), NextOf(s, k));
          assert ViewOf(s', k) == ViewOf(s, k) && NextOf(s', k) == NextOf(s, k);
        } else if k == i {
          var moved := s.nodes[i].(phase := if lost then Stopped else AwaitAck);
          assert ViewOf(s', k) == View(moved, s.links[i], Some(NewLink(s.spec, lost)));
        } else {
          assert ViewOf(s', k) == View(NewNode(s.nodes[i].turn.next), NewLink(s.spec, lost), None);
        }
      }
      FirstLinkSame(s, s', s.links[0]);
    }
  }

  lemma DialKeepsInv(s: State, lost: bool)
    requires Inv(s)
    ensures Inv(DoDial(s, lost))
  {
    if s.src.Idle? && |s.spec| >= 2 && IsProto(s.spec[0]) {
      NewViewOk(s.spec, s.spec[1], lost);
      EmptyPayload();
      hide Payload, TurnOf, IsProto;
      assert ViewOf(DoDial(s, lost), 0) == View(NewNode(s.spec[1]), NewLink(s.spec, lost), None);
    }
  }

  lemma StepKeepsInv(s: State, a: Action)
    requires Inv(s)
    ensures Inv(Step(s, a))
  {
    hide ViewOk, FirstLinkOk;
    match a
    case At(i, act) => if i < |s.nodes| { AtKeepsInv(s, i, act); }
    case Reset(i) => ResetKeepsInv(s, i);
    case Forward(i, lost) => ForwardKeepsInv(s, i, lost);
    case _ =>
      if s.nodes != [] {
        SourceKeepsInv(s, a);
      } else {
        match a
        case Dial(lost) => DialKeepsInv(s, lost);
        case _ =>
      }
  }

  lemma StepKeepsSpec(s: State, a: Action)
    ensures Step(s, a).spec == s.spec
  {}

  lemma InitInv(spec: seq<string>)
    ensures Inv(Init(spec))
  {}

  /** The invariant holds after every sequence of actions. */
  lemma {:induction false} Reachable(spec: seq<string>, actions: seq<Action>)
    ensures Inv(Exec(spec, actions)) && Exec(spec, actions).spec == spec
  {
    hide Inv, Step;
    InitInv(spec);
    if actions != [] {
      var before := Exec(spec, actions[..|actions| - 1]);
      Reachable(spec, actions[..|actions| - 1]);
      StepKeepsInv(before, actions[|actions| - 1]);
      StepKeepsSpec(before, actions[|actions| - 1]);
    }
  }
}
