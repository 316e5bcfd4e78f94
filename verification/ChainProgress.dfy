/**
 * What the chain is sure to do when nothing fails, whatever the order of its steps: setup comes to its
 * end, and an open chain that can deliver nothing more has delivered everything.
 */
module ChainProgress {
  import opened Common
  import opened ChainSpec
  import opened ChainProtocol
  import opened ChainInvariant
  import opened ChainSafety
  import opened ChainCompletion

  /** No reset, no message lost, and neither a handler nor the source gives up. */
  predicate Harmless(a: Action) {
    match a
    case Dial(lost) => !lost
    case Forward(_, lost) => !lost
    case At(_, act) => !act.Quit?
    case SrcFail => false
    case Reset(_) => false
    case _ => true
  }

  /** The steps of chain setup. */
  predicate SetsUp(a: Action) {
    a.Dial? || a.SrcAck? || a.Forward? || (a.At? && (a.act.Receive? || a.act.GetAck? || a.act.SendAck?))
  }

  predicate Intact(l: Link) {
    !l.reset && l.fwd.log != []
  }

  predicate Sound(v: View) {
    !v.node.phase.Stopped? && Intact(v.inL) && (v.out.Some? ==> Intact(v.out.value))
  }

  /** No stream has been reset and nobody has stopped. */
  ghost predicate Healthy(s: State) {
    Paired(s) && !s.src.Failed? &&
    forall i :: 0 <= i < |s.nodes| ==> !s.nodes[i].phase.Stopped? && Intact(s.links[i])
  }

  lemma HealthyView(s: State, i: nat)
    requires Healthy(s) && i < |s.nodes|
    ensures Sound(ViewOf(s, i))
  {}

  // --- Nothing goes wrong by itself ---

  /** How far a handler has come. */
  function Rank(p: Phase): nat {
    match p
    case Turned => 1
    case AwaitAck => 2
    case Acking(_) => 3
    case Relay => 4
    case _ => 0
  }

  lemma TurnIsReal(s: State, i: nat)
    requires Inv(s) && i < |s.nodes| && WellFormed(s.spec)
    ensures KnownTurn(s, i)
  {
    hide Inv, WellFormed, Chain, Stops, Visit, TurnOf, IsProto;
    NodesFollowSpec(s, i);
    TailIsIgnored(s.spec, s.spec, i);
    TurnFound(s.spec, s.nodes[i].service);
    TurnProto(s.spec, s.nodes[i].service);
  }

  lemma SetupActSound(spec: seq<string>, v: View, next: Option<string>, a: LocalAct)
    requires ViewOk(spec, v, next) && Sound(v) && (a.Receive? || a.GetAck? || a.SendAck?)
    requires var t := TurnOf(spec, v.node.service); !t.NotFound? && IsProto(t.proto)
    ensures Sound(Act(v, a))
    ensures Act(v, a) != v ==> Rank(Act(v, a).node.phase) > Rank(v.node.phase)
  {
    hide Payload, TurnOf, IsProto, Extend, BytesOk, AckOk;
  }

  lemma RelayActSound(spec: seq<string>, v: View, next: Option<string>, a: LocalAct)
    requires ViewOk(spec, v, next) && Sound(v) && !a.Quit? && !(a.Receive? || a.GetAck? || a.SendAck?)
    ensures Sound(Act(v, a)) && Act(v, a).node.phase == v.node.phase
  {
    TypedView(spec, v, next);
    hide Payload, TurnOf, IsProto, ViewOk, MaxPayload;
  }

  lemma UpdateHealthy(s: State, i: nat, v': View)
    requires Healthy(s) && i < |s.nodes| && Sound(v') && (v'.out.Some? <==> OutOf(s, i).Some?)
    ensures Healthy(Update(s, i, v'))
  {}

  lemma SourceTyped(s: State)
    requires Inv(s)
    ensures SourceReceivesTyped(s)
  {
    hide ViewOk, Payload;
  }

  lemma SourceHealthy(s: State, a: Action)
    requires Inv(s) && Healthy(s) && WellFormed(s.spec) && Harmless(a) && !a.At? && !a.Forward?
    ensures Healthy(Step(s, a))
  {
    SourceTyped(s);
    hide NodesOk, SourceOk, MaxPayload;
  }

  lemma ForwardHealthy(s: State, i: nat)
    requires Healthy(s)
    ensures Healthy(DoForward(s, i, false))
  {}

  predicate SetupAct(a: LocalAct) {
    a.Receive? || a.GetAck? || a.SendAck?
  }

  lemma AtHealthy(s: State, i: nat, act: LocalAct)
    requires Inv(s) && Healthy(s) && WellFormed(s.spec) && !act.Quit? && i < |s.nodes|
    ensures var (v, v') := (ViewOf(s, i), Act(ViewOf(s, i), act));
            && Healthy(Update(s, i, v')) && Rank(v'.node.phase) >= Rank(v.node.phase)
            && (SetupAct(act) && v' != v ==> Rank(v'.node.phase) > Rank(v.node.phase))
  {
    var v := ViewOf(s, i);
    TurnIsReal(s, i);
    HealthyView(s, i);
    NodeFacts(s, i);
    ActGood(s.spec, v, NextOf(s, i), act);
    hide Act, TurnOf, IsProto, Sound, Healthy, Inv, ViewOk, Rank;
    if SetupAct(act) {
      SetupActSound(s.spec, v, NextOf(s, i), act);
    } else {
      RelayActSound(s.spec, v, NextOf(s, i), act);
    }
    UpdateHealthy(s, i, Act(v, act));
  }

  // --- Setup comes to an end ---

  function Score(nodes: seq<Node>): nat {
    if nodes == [] then 0 else Score(nodes[..|nodes| - 1]) + 1 + Rank(nodes[|nodes| - 1].phase)
  }

  /** How far the whole setup has come. */
  function Level(s: State): nat {
    Score(s.nodes) + match s.src case Dialled => 1 case Open(_) => 2 case _ => 0
  }

  lemma ScoreAppend(nodes: seq<Node>, n: Node)
    ensures Score(nodes + [n]) == Score(nodes) + 1 + Rank(n.phase)
  {
    assert (nodes + [n])[..|nodes|] == nodes;
  }

  lemma {:induction false} ScoreUpdate(nodes: seq<Node>, i: nat, n: Node)
    requires i < |nodes|
    ensures Score(nodes[i := n]) + Rank(nodes[i].phase) == Score(nodes) + Rank(n.phase)
  {
    hide Rank;
    var m := |nodes| - 1;
    if i < m {
      ScoreUpdate(nodes[..m], i, n);
      assert nodes[i := n][..m] == nodes[..m][i := n];
    } else {
      assert nodes[i := n][..m] == nodes[..m];
    }
  }

  lemma {:induction false} ScoreBound(nodes: seq<Node>)
    ensures Score(nodes) <= 5 * |nodes|
  {
    if nodes != [] { ScoreBound(nodes[..|nodes| - 1]); }
  }

  ghost predicate Advances(s: State, a: Action) {
    SetsUp(a) && Step(s, a) != s
  }

  lemma ForwardScores(s: State, i: nat)
    requires Paired(s)
    ensures var s' := DoForward(s, i, false); s' == s || Level(s') == Level(s) + 2
  {
    if i + 1 == |s.nodes| && s.nodes[i].phase.Turned? && s.nodes[i].turn.Mid? {
      var moved := s.nodes[i].(phase := AwaitAck);
      ScoreUpdate(s.nodes, i, moved);
      ScoreAppend(s.nodes[i := moved], NewNode(s.nodes[i].turn.next));
    }
  }

  lemma UpdateScores(s: State, i: nat, v: View)
    requires Paired(s) && i < |s.nodes|
    ensures Level(Update(s, i, v)) + Rank(s.nodes[i].phase) == Level(s) + Rank(v.node.phase)
    ensures v == ViewOf(s, i) ==> Update(s, i, v) == s
  {
    ScoreUpdate(s.nodes, i, v.node);
    hide Score, Rank;
    if v == ViewOf(s, i) {
      assert s.nodes[i := s.nodes[i]] == s.nodes;
      assert s.links[i := s.links[i]] == s.links;
      assert i + 1 < |s.links| ==> s.links[i + 1 := s.links[i + 1]] == s.links;
    }
  }

  lemma SourceScores(s: State, a: Action)
    requires Inv(s) && Healthy(s) && WellFormed(s.spec) && Harmless(a) && !a.At? && !a.Forward?
    ensures Level(Step(s, a)) >= Level(s) + if Advances(s, a) then 1 else 0
  {
    SourceTyped(s);
    hide NodesOk, SourceOk, MaxPayload, Healthy;
    if a.Dial? { ScoreAppend([], NewNode(s.spec[1])); }
    assert [] + [NewNode(s.spec[1])] == [NewNode(s.spec[1])];
    hide Score, Rank;
  }

  lemma HealthyPaired(s: State)
    requires Healthy(s)
    ensures Paired(s) && !s.src.Failed?
  {}

  /** A harmless step leaves everybody well, and a setup step that does anything brings the setup on. */
  lemma StepScores(s: State, a: Action)
    requires Inv(s) && Healthy(s) && WellFormed(s.spec) && Harmless(a)
    ensures Healthy(Step(s, a))
    ensures Level(Step(s, a)) >= Level(s) + if Advances(s, a) then 1 else 0
  {
    hide Inv, Healthy, WellFormed, Act, Level, Rank, DoForward;
    match a
    case At(i, act) =>
      assert Paired(s) by { HealthyPaired(s); }
      if i < |s.nodes| {
        AtHealthy(s, i, act);
        UpdateScores(s, i, Act(ViewOf(s, i), act));
      }
    case Forward(i, _) =>
      HealthyPaired(s);
      ForwardHealthy(s, i);
      ForwardScores(s, i);
    case _ =>
      SourceHealthy(s, a);
      SourceScores(s, a);
  }

  /** How many steps of a run have brought the setup on. */
  ghost function Work(spec: seq<string>, actions: seq<Action>): nat {
    if actions == [] then 0
    else
      var before, a := actions[..|actions| - 1], actions[|actions| - 1];
      Work(spec, before) + if Advances(Exec(spec, before), a) then 1 else 0
  }

  lemma {:induction false} HarmlessRun(spec: seq<string>, actions: seq<Action>)
    requires WellFormed(spec) && forall a :: a in actions ==> Harmless(a)
    ensures Healthy(Exec(spec, actions)) && Work(spec, actions) <= Level(Exec(spec, actions))
  {
    hide WellFormed, Harmless, Step, Level, Advances;
    if actions == [] {
      assert Healthy(Init(spec));
    } else {
      var m := |actions| - 1;
      assert actions[m] in actions;
      HarmlessRun(spec, actions[..m]);
      Reachable(spec, actions[..m]);
      hide Inv, Healthy;
      StepScores(Exec(spec, actions[..m]), actions[m]);
    }
  }

  /** However its steps are ordered, setup takes at most five per proxy and two at the source. */
  lemma SetupIsBounded(spec: seq<string>, actions: seq<Action>)
    requires WellFormed(spec) && Contiguous(Chain(spec)) && forall a :: a in actions ==> Harmless(a)
    ensures Work(spec, actions) <= 5 * |Stops(Chain(spec))| + 2
  {
    hide WellFormed, Contiguous, Chain, Stops, Harmless, Exec, Inv, Healthy, Work;
    HarmlessRun(spec, actions);
    Reachable(spec, actions);
    var s := Exec(spec, actions);
    ScoreBound(s.nodes);
    if s.nodes != [] { TurnKnown(s, |s.nodes| - 1); }
  }

  // --- And it does not come to an end too early ---

  /** A handler that can do its next setup step. */
  predicate Due(v: View, act: LocalAct) {
    || (act.Receive? && v.node.phase.Waiting? && v.inL.fwd.Ready())
    || (act.GetAck? && v.node.phase.AwaitAck? && v.out.Some? && v.out.value.bwd.Ready())
    || (act.SendAck? && (v.node.phase.Acking? || (v.node.phase.Turned? && v.node.turn.End?)))
  }

  lemma DueMoves(v: View, act: LocalAct)
    requires Due(v, act)
    ensures Act(v, act).node.phase != v.node.phase
  {
    hide TurnOf, IsProto, Extend;
  }

  lemma DueAdvances(s: State, k: nat, act: LocalAct)
    requires Paired(s) && k < |s.nodes| && Due(ViewOf(s, k), act)
    ensures Advances(s, At(k, act))
  {
    DueMoves(ViewOf(s, k), act);
    hide Act;
    assert Step(s, At(k, act)).nodes[k] == Act(ViewOf(s, k), act).node;
  }

  lemma ForwardAdvances(s: State, k: nat)
    requires Paired(s) && k + 1 == |s.nodes| && s.nodes[k].phase.Turned? && s.nodes[k].turn.Mid?
    ensures Advances(s, Forward(k, false))
  {
    hide NewLink;
    assert |DoForward(s, k, false).nodes| == |s.nodes| + 1;
  }

  lemma LastIsDue(spec: seq<string>, v: View)
    requires ViewOk(spec, v, None) && Sound(v) && v.inL.bwd.log == []
    ensures Due(v, Receive) || Due(v, SendAck) || (v.node.phase.Turned? && v.node.turn.Mid?)
  {
    hide Payload, TurnOf, IsProto, BytesOk, LinkOk;
  }

  lemma MiddleIsDue(spec: seq<string>, v: View, next: Option<string>)
    requires ViewOk(spec, v, next) && Sound(v) && v.inL.bwd.log == [] && v.out.Some? && v.out.value.bwd.log != []
    ensures Due(v, GetAck) || Due(v, SendAck)
  {
    hide Payload, TurnOf, IsProto, BytesOk, LinkOk;
  }

  /** The last handler, if it has not acknowledged, can read the request, pass it on or acknowledge. */
  lemma LastMoves(s: State) returns (a: Action)
    requires Paired(s) && s.nodes != [] && !Acked(s, |s.nodes| - 1)
    requires Inv(s) && Healthy(s)
    ensures Harmless(a) && Advances(s, a)
  {
    var k := |s.nodes| - 1;
    NodeFacts(s, k);
    HealthyView(s, k);
    hide Inv, Healthy, ViewOk, Sound, Due, Advances, SetsUp;
    LastIsDue(s.spec, ViewOf(s, k));
    if Due(ViewOf(s, k), Receive) {
      a := At(k, Receive);
      DueAdvances(s, k, Receive);
    } else if Due(ViewOf(s, k), SendAck) {
      a := At(k, SendAck);
      DueAdvances(s, k, SendAck);
    } else {
      a := Forward(k, false);
      ForwardAdvances(s, k);
    }
  }

  /** A handler whose successor has acknowledged can take its ACK, or send on the one it has. */
  lemma MiddleMoves(s: State, k: nat) returns (a: Action)
    requires Paired(s) && k + 1 < |s.nodes| && !Acked(s, k) && Acked(s, k + 1)
    requires Inv(s) && Healthy(s)
    ensures Harmless(a) && Advances(s, a)
  {
    NodeFacts(s, k);
    HealthyView(s, k);
    hide Inv, Healthy, ViewOk, Sound, Due, Advances;
    MiddleIsDue(s.spec, ViewOf(s, k), NextOf(s, k));
    var act := if Due(ViewOf(s, k), GetAck) then GetAck else SendAck;
    a := At(k, act);
    DueAdvances(s, k, act);
  }

  lemma DialAdvances(s: State)
    requires Inv(s) && !s.src.Failed? && s.nodes == [] && WellFormed(s.spec)
    ensures Harmless(Dial(false)) && Advances(s, Dial(false))
  {
    hide NodesOk;
    assert |Step(s, Dial(false)).nodes| == 1;
  }

  lemma SrcAckAdvances(s: State)
    requires Paired(s) && s.nodes != [] && Acked(s, 0)
    requires Inv(s) && Healthy(s) && !s.src.Open?
    ensures Harmless(SrcAck) && Advances(s, SrcAck)
  {
    hide NodesOk, LinkOk, Payload;
    assert Step(s, SrcAck).src != s.src;
  }

  /** An ACK that has been sent can be carried on from the first handler that has sent one. */
  lemma {:induction false} AckMoves(s: State, i: nat) returns (a: Action)
    requires Paired(s) && i < |s.nodes| && Acked(s, i)
    requires Inv(s) && Healthy(s) && !s.src.Open?
    ensures Harmless(a) && Advances(s, a)
  {
    hide Inv, Healthy, Advances, Harmless, Acked;
    if i == 0 {
      a := SrcAck;
      SrcAckAdvances(s);
    } else {
      var k := i - 1;
      if Acked(s, k) { a := AckMoves(s, k); } else { a := MiddleMoves(s, k); }
    }
  }

  lemma SomebodyMoves(s: State) returns (a: Action)
    requires Inv(s) && Healthy(s) && WellFormed(s.spec) && !s.src.Open?
    ensures Harmless(a) && Advances(s, a)
  {
    HealthyPaired(s);
    hide Inv, Healthy, Paired, WellFormed, Advances, Acked, Harmless;
    if s.nodes == [] {
      a := Dial(false);
      DialAdvances(s);
    } else if Acked(s, |s.nodes| - 1) {
      a := AckMoves(s, |s.nodes| - 1);
    } else {
      a := LastMoves(s);
    }
  }

  lemma AckedRelays(spec: seq<string>, v: View, next: Option<string>)
    requires ViewOk(spec, v, next) && Sound(v) && v.inL.bwd.log != []
    ensures v.node.phase.Relay? && PhaseOk(spec, v, next)
  {
    hide TurnOf, LinkOk, BytesOk;
  }

  lemma OpenRelays(s: State, i: nat)
    requires Inv(s) && Healthy(s) && s.src.Open? && i < |s.nodes|
    ensures s.nodes[i].phase.Relay?
  {
    OpenIsAcked(s);
    NodeFacts(s, i);
    HealthyView(s, i);
    assert Acked(s, i);
    hide ViewOk, Inv, Healthy, Sound, ReverseChain;
    AckedRelays(s.spec, ViewOf(s, i), NextOf(s, i));
  }

  /** Without failures setup stops only when the chain is open, and then every handler relays. */
  lemma SetupDoesNotStall(spec: seq<string>, actions: seq<Action>)
    requires WellFormed(spec) && forall a :: a in actions ==> Harmless(a)
    ensures var s := Exec(spec, actions);
            if s.src.Open? then forall i :: 0 <= i < |s.nodes| ==> s.nodes[i].phase.Relay?
            else exists a :: Harmless(a) && Advances(s, a)
  {
    hide WellFormed, Exec, Inv, Healthy, Step;
    HarmlessRun(spec, actions);
    Reachable(spec, actions);
    var s := Exec(spec, actions);
    if s.src.Open? {
      forall i | 0 <= i < |s.nodes| ensures s.nodes[i].phase.Relay? { OpenRelays(s, i); }
    } else {
      var a := SomebodyMoves(s);
    }
  }

  // --- What is on its way arrives ---

  predicate DeliveryAct(a: LocalAct) {
    a.ServGet? || a.ServWrite? || a.ServSend? || a.BackGet? || a.BackSend?
  }

  /** The steps that carry on what clients and services have already sent. */
  predicate Delivers(a: Action) {
    a.ClientSend? || a.ClientGet? || a.ClientWrite? || (a.At? && DeliveryAct(a.act))
  }

  /** No step that carries anything on is possible. */
  ghost predicate Settled(s: State) {
    forall a :: Delivers(a) ==> Step(s, a) == s
  }

  ghost predicate SettledView(v: View) {
    forall act :: DeliveryAct(act) ==> Act(v, act).node == v.node
  }

  /** Nothing is left at a node, nor unread on the streams it reads. */
  predicate Empty(v: View) {
    EmptyHanded(v.node) && !v.inL.fwd.Ready() && (v.out.Some? ==> !v.out.value.bwd.Ready())
  }

  lemma HoldingUnsettles(spec: seq<string>, v: View, next: Option<string>)
    requires PhaseOk(spec, v, next) && Sound(v) && v.node.phase.Relay? && !EmptyHanded(v.node)
    ensures !SettledView(v)
  {
    hide TurnOf, IsProto;
    if v.node.toServ.Some? {
      assert Act(v, ServWrite(|v.node.toServ.value|)).node.toServ.None?;
    } else if v.node.fromServ.Some? {
      assert v.node.turn.End? || v.node.turn.Mid?;
      assert Act(v, ServSend).node.fromServ.None?;
    } else {
      assert Act(v, BackSend).node.back.None?;
    }
  }

  lemma UnreadUnsettles(spec: seq<string>, v: View, next: Option<string>)
    requires PhaseOk(spec, v, next) && ReceivesTyped(spec, v)
    requires Sound(v) && v.node.phase.Relay? && EmptyHanded(v.node) && !Empty(v)
    ensures !SettledView(v)
  {
    hide TurnOf, IsProto;
    if v.inL.fwd.Ready() {
      assert Act(v, ServGet).node.toServ.Some?;
    } else {
      assert Act(v, BackGet).node.back.Some?;
    }
  }

  lemma ViewSettles(s: State, i: nat)
    requires Paired(s) && i < |s.nodes| && Settled(s)
    ensures SettledView(ViewOf(s, i))
  {
    forall act | DeliveryAct(act)
      ensures Act(ViewOf(s, i), act).node == s.nodes[i]
    {
      assert Delivers(At(i, act));
      assert Step(s, At(i, act)).nodes[i] == Act(ViewOf(s, i), act).node by { hide Act; }
    }
  }

  lemma EmptyView(spec: seq<string>, v: View, next: Option<string>)
    requires ViewOk(spec, v, next) && Sound(v) && v.inL.bwd.log != [] && SettledView(v)
    ensures Empty(v)
  {
    hide ViewOk, Sound, SettledView, PhaseOk, ReceivesTyped, Empty;
    AckedRelays(spec, v, next);
    TypedView(spec, v, next);
    if !EmptyHanded(v.node) {
      HoldingUnsettles(spec, v, next);
    } else if !Empty(v) {
      UnreadUnsettles(spec, v, next);
    }
  }

  lemma NodeEmpty(s: State, i: nat)
    requires Inv(s) && Healthy(s) && s.src.Open? && i < |s.nodes| && Settled(s)
    ensures Empty(ViewOf(s, i))
  {
    OpenIsAcked(s);
    NodeFacts(s, i);
    HealthyView(s, i);
    assert Acked(s, i);
    hide ViewOk, Inv, Healthy, Settled, Sound, SettledView, Empty, ReverseChain;
    ViewSettles(s, i);
    EmptyView(s.spec, ViewOf(s, i), NextOf(s, i));
  }

  lemma SourceUnsettles(s: State)
    requires SourceReceivesTyped(s) && s.src.Open? && s.links != [] && !s.links[0].reset
    requires s.up.Some? || s.down.Some? || s.links[0].bwd.Ready()
    ensures !Settled(s)
  {
    if s.down.Some? {
      assert Step(s, ClientWrite(|s.down.value|)).down.None?;
    } else if s.up.Some? {
      assert Step(s, ClientSend).up.None?;
    } else {
      assert Step(s, ClientGet).down.Some?;
    }
  }

  lemma SourceEmpty(s: State)
    requires Inv(s) && Healthy(s) && s.src.Open? && Settled(s) && s.nodes != []
    ensures s.up.None? && s.down.None? && !s.links[0].bwd.Ready()
  {
    SourceTyped(s);
    hide Inv, Settled, SourceReceivesTyped;
    if s.up.Some? || s.down.Some? || s.links[0].bwd.Ready() { SourceUnsettles(s); }
  }

  lemma NothingUnread(c: Chan)
    requires !c.Ready()
    ensures Payload(c.Unread()) == []
  {}

  lemma {:induction false} NothingUpstream(s: State, i: nat)
    requires Inv(s) && Healthy(s) && s.src.Open? && Settled(s) && i < |s.nodes|
    ensures Upstream(s, i) == []
    decreases |s.nodes| - i
  {
    NodeEmpty(s, i);
    hide Inv, Healthy, Settled, Payload;
    if i + 1 < |s.nodes| {
      NothingUpstream(s, i + 1);
      NothingUnread(s.links[i + 1].bwd);
    }
  }

  lemma ServiceFed(spec: seq<string>, actions: seq<Action>, i: nat)
    requires var s := Exec(spec, actions); s.src.Open? && Healthy(s) && Settled(s) && i < |s.nodes|
    ensures var s := Exec(spec, actions); s.nodes[i].servIn == Emitted(s, i)
  {
    var s := Exec(spec, actions);
    Reachable(spec, actions);
    ForwardRelay(spec, actions, i);
    hide Exec, Inv, Healthy, Settled, Payload;
    SourceEmpty(s);
    NodeEmpty(s, i);
    if i > 0 { NodeEmpty(s, i - 1); }
    NothingUnread(s.links[i].fwd);
    assert HeldBefore(s, i) == [];
  }

  /**
   * An open chain whose streams are intact, and in which nothing more can be carried on, has given the
   * client all that the last service sent, and each service all that the party before it sent.
   */
  lemma SettledDelivered(spec: seq<string>, actions: seq<Action>)
    requires var s := Exec(spec, actions); s.src.Open? && Healthy(s) && Settled(s)
    ensures var s := Exec(spec, actions);
            && s.nodes != [] && s.clientIn == s.nodes[|s.nodes| - 1].servOut
            && forall i :: 0 <= i < |s.nodes| ==> s.nodes[i].servIn == Emitted(s, i)
  {
    var s := Exec(spec, actions);
    Reachable(spec, actions);
    ReverseRelay(spec, actions);
    hide Exec, Inv, Healthy, Settled, Payload, Upstream, Emitted;
    SourceEmpty(s);
    NothingUpstream(s, 0);
    NothingUnread(s.links[0].bwd);
    forall i | 0 <= i < |s.nodes|
      ensures s.nodes[i].servIn == Emitted(s, i)
    {
      ServiceFed(spec, actions, i);
    }
  }
}
