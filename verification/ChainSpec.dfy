/** Chain specifications such as tcp/a/b/udp/c: the hops they denote and how each proxy reads them. */
module ChainSpec {
  import opened Common

  predicate IsProto(token: string) {
    token == "udp" || token == "tcp"
  }

  /** A service and the transport named most recently before it. */
  datatype Hop = Hop(proto: string, service: string)

  function Hops(spec: seq<string>, proto: string): seq<Hop> {
    if spec == [] then []
    else if IsProto(spec[0]) then Hops(spec[1..], spec[0])
    else [Hop(proto, spec[0])] + Hops(spec[1..], proto)
  }

  /** The transport in force after a prefix of the specification. */
  function Transport(spec: seq<string>, proto: string): string {
    if spec == [] then proto
    else Transport(spec[1..], if IsProto(spec[0]) then spec[0] else proto)
  }

  /** The first position of a service, or the number of hops. */
  function FirstOf(hops: seq<Hop>, service: string): (i: nat)
    ensures i <= |hops| && (i < |hops| ==> hops[i].service == service)
    ensures forall k :: 0 <= k < i ==> hops[k].service != service
  {
    if hops == [] || hops[0].service == service then 0 else 1 + FirstOf(hops[1..], service)
  }

  /** The first position from i on that holds another service, or the number of hops. */
  function RunEnd(hops: seq<Hop>, service: string, i: nat): (j: nat)
    requires i <= |hops|
    ensures i <= j <= |hops| && (j < |hops| ==> hops[j].service != service)
    ensures forall k :: i <= k < j ==> hops[k].service == service
    decreases |hops| - i
  {
    if i == |hops| || hops[i].service != service then i else RunEnd(hops, service, i + 1)
  }

  lemma {:induction false} HopsConcat(a: seq<string>, b: seq<string>, proto: string)
    ensures Hops(a + b, proto) == Hops(a, proto) + Hops(b, Transport(a, proto))
    ensures Transport(a + b, proto) == Transport(b, Transport(a, proto))
  {
    if a == [] {
      assert a + b == b;
    } else {
      assert (a + b)[1..] == a[1..] + b;
      HopsConcat(a[1..], b, if IsProto(a[0]) then a[0] else proto);
    }
  }

  lemma NoHops(proto: string)
    ensures Hops([], proto) == [] && Transport([], proto) == proto
  {}

  lemma HopsOfOne(token: string, proto: string)
    ensures Hops([token], proto) == if IsProto(token) then [] else [Hop(proto, token)]
    ensures Transport([token], proto) == if IsProto(token) then token else proto
  {
    hide IsProto;
    assert [token][1..] == [];
  }

  lemma HopsSplit(spec: seq<string>, k: nat)
    requires k <= |spec|
    ensures Hops(spec, "") == Hops(spec[..k], "") + Hops(spec[k..], Transport(spec[..k], ""))
  {
    hide IsProto, Hops, Transport;
    assert spec == spec[..k] + spec[k..];
    HopsConcat(spec[..k], spec[k..], "");
  }

  /** Reading one more token adds a hop or changes the transport. */
  lemma ScanNext(spec: seq<string>, k: nat)
    requires k < |spec|
    ensures var (t, p) := (spec[k], Transport(spec[..k], ""));
            && Hops(spec[..k + 1], "") == Hops(spec[..k], "") + (if IsProto(t) then [] else [Hop(p, t)])
            && Transport(spec[..k + 1], "") == (if IsProto(t) then t else p)
  {
    hide IsProto, Hops, Transport;
    assert spec[..k + 1] == spec[..k] + [spec[k]];
    HopsConcat(spec[..k], [spec[k]], "");
    HopsOfOne(spec[k], Transport(spec[..k], ""));
  }

  /** The handler's scan: where this service stands in the chain and what comes next. */
  method ScanSpec(spec: seq<string>, service: string)
      returns (tpProto: string, tpProtoThis: string, nextServ: string, foundMe: bool)
    ensures var hops := Hops(spec, "");
            var i := FirstOf(hops, service);
            var j := RunEnd(hops, service, i);
            && (foundMe <==> i < |hops|)
            && (foundMe ==> tpProtoThis == hops[j - 1].proto)
            && (foundMe && j < |hops| ==> nextServ == hops[j].service && tpProto == hops[j].proto)
            && (!foundMe || j == |hops| ==> nextServ == "" && tpProto == Transport(spec, ""))
  {
    NoHops("");
    hide Hops, Transport;
    tpProto, tpProtoThis, nextServ, foundMe := "", "", "", false;
    ghost var hops := Hops(spec, "");
    ghost var i := FirstOf(hops, service);
    assert spec[..0] == [];
    for k := 0 to |spec|
      invariant tpProto == Transport(spec[..k], "") && nextServ == ""
      invariant Hops(spec[..k], "") <= hops
      invariant var n := |Hops(spec[..k], "")|;
                if foundMe then i < n <= RunEnd(hops, service, i) && tpProtoThis == hops[n - 1].proto else n <= i
    {
      ghost var n := |Hops(spec[..k], "")|;
      var token := spec[k];
      ScanNext(spec, k);
      HopsSplit(spec, k + 1);
      assert !IsProto(token) ==> hops[n] == Hop(tpProto, token);
      if token == "udp" || token == "tcp" {
        tpProto := token;
      } else if token == service {
        foundMe := true;
        tpProtoThis := tpProto;
      } else if foundMe {
        nextServ := token;
        break;
      }
    }
    assert spec[..|spec|] == spec;
  }

  /** What a handler does after its scan. */
  datatype Turn = NotFound | End(proto: string) | Mid(proto: string, next: string)

  function TurnIn(hops: seq<Hop>, service: string): Turn {
    var i := FirstOf(hops, service);
    if i == |hops| then NotFound
    else
      var j := RunEnd(hops, service, i);
      if j == |hops| || hops[j].service == "" then End(hops[j - 1].proto)
      else Mid(hops[j - 1].proto, hops[j].service)
  }

  function TurnOf(spec: seq<string>, service: string): Turn {
    TurnIn(Hops(spec, ""), service)
  }

  method TakeTurn(spec: seq<string>, service: string) returns (t: Turn)
    ensures t == TurnOf(spec, service)
  {
    hide FirstOf, RunEnd, Hops;
    var tpProto, tpProtoThis, nextServ, foundMe := ScanSpec(spec, service);
    if !foundMe {
      return NotFound;
    } else if foundMe && nextServ == "" {
      return End(tpProtoThis);
    }
    return Mid(tpProtoThis, nextServ);
  }

  // --- Reading the specification as hops ---

  /** A transport leads and the source has a service to resolve. */
  predicate WellFormed(spec: seq<string>) {
    |spec| >= 2 && IsProto(spec[0]) && !IsProto(spec[1]) && spec[1] != ""
  }

  /** The specification up to its first empty token, which a scan takes for the end of the chain. */
  function Cut(spec: seq<string>): (r: seq<string>)
    ensures r <= spec && "" !in r && (r == spec || spec[|r|] == "")
  {
    if spec == [] || spec[0] == "" then [] else [spec[0]] + Cut(spec[1..])
  }

  /** The hops that the chain can consist of. */
  function Chain(spec: seq<string>): seq<Hop> {
    Hops(Cut(spec), "")
  }

  function Render(hops: seq<Hop>): seq<string> {
    if hops == [] then [] else [hops[0].proto, hops[0].service] + Render(hops[1..])
  }

  /** Any list of hops is what its written form denotes. */
  lemma {:induction false} RenderThenRead(hops: seq<Hop>, proto: string)
    requires forall k :: 0 <= k < |hops| ==> IsProto(hops[k].proto) && !IsProto(hops[k].service)
    ensures Hops(Render(hops), proto) == hops
  {
    if hops != [] {
      var s := Render(hops);
      assert s[1..] == [hops[0].service] + Render(hops[1..]);
      assert s[1..][1..] == Render(hops[1..]);
      RenderThenRead(hops[1..], hops[0].proto);
    }
  }

  lemma {:induction false} HopsFacts(spec: seq<string>, proto: string)
    ensures forall h :: h in Hops(spec, proto) ==> !IsProto(h.service) && h.service in spec
    ensures IsProto(proto) ==> forall h :: h in Hops(spec, proto) ==> IsProto(h.proto)
    ensures forall t :: t in spec && !IsProto(t) ==> exists h :: h in Hops(spec, proto) && h.service == t
  {
    if spec != [] {
      hide IsProto;
      var p := if IsProto(spec[0]) then spec[0] else proto;
      HopsFacts(spec[1..], p);
      assert spec == [spec[0]] + spec[1..];
      var rest := Hops(spec[1..], p);
      if !IsProto(spec[0]) {
        assert Hops(spec, proto) == [Hop(proto, spec[0])] + rest;
        assert Hop(proto, spec[0]) in Hops(spec, proto);
        assert forall h :: h in rest ==> h in Hops(spec, proto);
      }
    }
  }

  /** The first hop is the service the source resolves, over the transport it opened. */
  lemma FirstHop(spec: seq<string>)
    requires WellFormed(spec)
    ensures Chain(spec) != [] && Chain(spec)[0] == Hop(spec[0], spec[1])
    ensures forall h :: h in Chain(spec) ==> h.service != ""
    ensures forall h :: h in Hops(spec, "") ==> IsProto(h.proto)
  {
    HopsFacts(spec[1..], spec[0]);
    var cut := Cut(spec);
    assert cut == [spec[0]] + Cut(spec[1..]) && Cut(spec[1..]) == [spec[1]] + Cut(spec[2..]) by {
      assert spec[1..][1..] == spec[2..];
    }
    assert cut[1..] == [spec[1]] + Cut(spec[2..]);
    assert Hops(cut, "") == Hops(cut[1..], spec[0]);
    HopsFacts(cut, "");
  }

  lemma StartsEmpty(spec: seq<string>, proto: string)
    requires spec != [] && spec[0] == ""
    ensures Hops(spec, proto) != [] && Hops(spec, proto)[0].service == ""
  {}

  lemma TurnBefore(chain: seq<Hop>, rest: seq<Hop>, service: string)
    requires service != "" && FirstOf(chain, service) < |chain| && rest != [] && rest[0].service == ""
    ensures TurnIn(chain + rest, service) == TurnIn(chain, service)
  {
    hide FirstOf, RunEnd;
    var hops, i := chain + rest, FirstOf(chain, service);
    assert hops[|chain|] == rest[0];
    assert FirstOf(hops, service) == i by { assert hops[i] == chain[i]; }
    var j := RunEnd(chain, service, i);
    assert RunEnd(hops, service, i) == j by { assert j < |chain| ==> hops[j] == chain[j]; }
    assert hops[j - 1] == chain[j - 1];
  }

  /** Beyond the empty token nothing matters to a service before it. */
  lemma CutTurn(spec: seq<string>, service: string)
    requires service != "" && FirstOf(Chain(spec), service) < |Chain(spec)|
    ensures TurnOf(spec, service) == TurnOf(Cut(spec), service)
  {
    var cut := Cut(spec);
    if cut != spec {
      HopsSplit(spec, |cut|);
      assert spec[..|cut|] == cut && spec[|cut|..][0] == "";
      hide Cut, Hops, Transport, FirstOf, TurnIn;
      StartsEmpty(spec[|cut|..], Transport(cut, ""));
      TurnBefore(Chain(spec), Hops(spec[|cut|..], Transport(cut, "")), service);
    }
  }

  // --- The same on tokens ---

  /** The transport named most recently before position k, or none. */
  ghost predicate NearestProto(spec: seq<string>, k: nat, proto: string)
    requires k <= |spec|
  {
    if exists q :: 0 <= q < k && IsProto(spec[q])
    then exists p :: 0 <= p < k && IsProto(spec[p]) && spec[p] == proto && forall q :: p < q < k ==> !IsProto(spec[q])
    else proto == ""
  }

  /** Position `first` is the first to name the service, and `last` the last before another service or the end. */
  ghost predicate StandsAt(spec: seq<string>, service: string, first: nat, last: nat, stop: nat) {
    && first <= last < stop <= |spec| && !IsProto(service)
    && spec[first] == service == spec[last] && (forall k :: 0 <= k < first ==> spec[k] != service)
    && (forall k :: first < k < stop ==> IsProto(spec[k]) || spec[k] == service)
    && (forall k :: last < k < stop ==> spec[k] != service)
    && (stop < |spec| ==> !IsProto(spec[stop]) && spec[stop] != service)
  }

  lemma {:induction false} TransportIsNearest(spec: seq<string>, k: nat, proto: string)
    requires k <= |spec| && NearestProto(spec, k, proto)
    ensures Transport(spec[..k], "") == proto
  {
    if k == 0 {
      NoHops("");
      assert spec[..0] == [];
    } else {
      ScanNext(spec, k - 1);
      if !IsProto(spec[k - 1]) {
        assert NearestProto(spec, k - 1, proto);
        TransportIsNearest(spec, k - 1, proto);
      }
    }
  }

  lemma OnlyProtos(spec: seq<string>, proto: string)
    requires forall t :: t in spec ==> IsProto(t)
    ensures Hops(spec, proto) == []
  {
    HopsFacts(spec, proto);
    if Hops(spec, proto) != [] { assert Hops(spec, proto)[0] in Hops(spec, proto); }
  }

  lemma HopsBetween(spec: seq<string>, a: nat, b: nat)
    requires a <= b <= |spec|
    ensures Hops(spec[..b], "") == Hops(spec[..a], "") + Hops(spec[a..b], Transport(spec[..a], ""))
  {
    assert spec[..b] == spec[..a] + spec[a..b];
    HopsConcat(spec[..a], spec[a..b], "");
  }

  /** A handler is left out exactly when the request does not name its service. */
  lemma NotFoundIffUnnamed(spec: seq<string>, service: string)
    ensures TurnOf(spec, service).NotFound? <==> service !in spec || IsProto(service)
  {
    HopsFacts(spec, "");
    hide IsProto, Hops;
    var hops := Hops(spec, "");
    var i := FirstOf(hops, service);
    if i < |hops| { assert hops[i] in hops; }
    if service in spec && !IsProto(service) {
      var h :| h in hops && h.service == service;
    }
  }

  lemma NoneBefore(spec: seq<string>, service: string, first: nat)
    requires first <= |spec| && forall k :: 0 <= k < first ==> spec[k] != service
    ensures forall h :: h in Hops(spec[..first], "") ==> h.service != service
  {
    HopsFacts(spec[..first], "");
  }

  lemma OnlyService(spec: seq<string>, service: string, proto: string)
    requires forall t :: t in spec ==> IsProto(t) || t == service
    ensures forall h :: h in Hops(spec, proto) ==> h.service == service
  {
    HopsFacts(spec, proto);
  }

  lemma HopAtStop(spec: seq<string>, stop: nat)
    requires stop <= |spec| && (stop < |spec| ==> !IsProto(spec[stop]))
    ensures var (hops, j) := (Hops(spec, ""), |Hops(spec[..stop], "")|);
            && Hops(spec[..stop], "") <= hops
            && if stop < |spec| then j < |hops| && hops[j].service == spec[stop] else j == |hops|
  {
    HopsSplit(spec, stop);
    if stop < |spec| {
      ScanNext(spec, stop);
      HopsSplit(spec, stop + 1);
    } else {
      assert spec[..stop] == spec;
    }
    hide IsProto, Hops, Transport;
  }

  lemma RunBegins(spec: seq<string>, first: nat, stop: nat)
    requires first < stop <= |spec| && !IsProto(spec[first])
    ensures |Hops(spec[..first], "")| < |Hops(spec[..stop], "")|
  {
    ScanNext(spec, first);
    HopsBetween(spec, first + 1, stop);
    hide IsProto, Hops, Transport;
  }

  lemma RunIs(before: seq<Hop>, run: seq<Hop>, rest: seq<Hop>, service: string)
    requires run != [] && (forall h :: h in before ==> h.service != service)
    requires (forall h :: h in run ==> h.service == service) && (rest != [] ==> rest[0].service != service)
    ensures FirstOf(before + run + rest, service) == |before|
    ensures RunEnd(before + run + rest, service, |before|) == |before + run|
  {
    hide FirstOf, RunEnd;
    var hops, i, j := before + run + rest, |before|, |before + run|;
    assert forall k :: 0 <= k < i ==> hops[k] == before[k] && before[k] in before;
    assert forall k :: i <= k < j ==> hops[k] == run[k - i] && run[k - i] in run;
    assert j < |hops| ==> hops[j] == rest[0];
    assert hops[i].service == service;
  }

  /** Where the hops of a service's run begin and end. */
  lemma RunOnTokens(spec: seq<string>, service: string, first: nat, last: nat, stop: nat)
    requires StandsAt(spec, service, first, last, stop)
    ensures var (hops, i, j) := (Hops(spec, ""), |Hops(spec[..first], "")|, |Hops(spec[..stop], "")|);
            && i < j <= |hops| && FirstOf(hops, service) == i && RunEnd(hops, service, i) == j
            && Hops(spec[..stop], "") <= hops
            && (if stop < |spec| then j < |hops| && hops[j].service == spec[stop] else j == |hops|)
  {
    var before, run := Hops(spec[..first], ""), Hops(spec[first..stop], Transport(spec[..first], ""));
    NoneBefore(spec, service, first);
    OnlyService(spec[first..stop], service, Transport(spec[..first], ""));
    HopsBetween(spec, first, stop);
    HopAtStop(spec, stop);
    RunBegins(spec, first, stop);
    hide IsProto, Hops, Transport, FirstOf, RunEnd;
    var hops, rest := Hops(spec, ""), Hops(spec, "")[|before + run|..];
    assert hops == before + run + rest;
    RunIs(before, run, rest, service);
  }

  /** The transport of the last hop of the run. */
  lemma LastOnTokens(spec: seq<string>, service: string, first: nat, last: nat, stop: nat)
    requires StandsAt(spec, service, first, last, stop)
    ensures var upTo := Hops(spec[..stop], "");
            upTo != [] && upTo[|upTo| - 1] == Hop(Transport(spec[..last], ""), service)
  {
    ScanNext(spec, last);
    HopsBetween(spec, last + 1, stop);
    assert forall t :: t in spec[last + 1..stop] ==> IsProto(t);
    OnlyProtos(spec[last + 1..stop], Transport(spec[..last + 1], ""));
  }

  lemma TurnFrom(hops: seq<Hop>, service: string, i: nat, j: nat)
    requires i < j <= |hops| && FirstOf(hops, service) == i && RunEnd(hops, service, i) == j
    ensures TurnIn(hops, service)
         == if j == |hops| || hops[j].service == "" then End(hops[j - 1].proto)
            else Mid(hops[j - 1].proto, hops[j].service)
  {}

  /**
   * What a handler makes of any specification, told on its tokens: its own transport is the one named
   * most recently before the last mention of its service, and its successor the first other service after.
   */
  lemma TurnOnTokens(spec: seq<string>, service: string, first: nat, last: nat, stop: nat, proto: string)
    requires first <= last < stop <= |spec|
    requires StandsAt(spec, service, first, last, stop) && NearestProto(spec, last, proto)
    ensures TurnOf(spec, service)
         == if stop == |spec| || spec[stop] == "" then End(proto) else Mid(proto, spec[stop])
  {
    hide StandsAt, NearestProto, IsProto, Hops, Transport, TurnIn;
    RunOnTokens(spec, service, first, last, stop);
    LastOnTokens(spec, service, first, last, stop);
    TransportIsNearest(spec, last, proto);
    TurnFrom(Hops(spec, ""), service, |Hops(spec[..first], "")|, |Hops(spec[..stop], "")|);
  }

  /** With distinct services each handler takes its own hop's transport and the next hop's service. */
  lemma DistinctServicesTurn(spec: seq<string>, k: nat)
    requires WellFormed(spec) && k < |Chain(spec)|
    requires var hops := Chain(spec); forall i, j :: 0 <= i < j < |hops| ==> hops[i].service != hops[j].service
    ensures var hops := Chain(spec);
            TurnOf(spec, hops[k].service)
              == if k + 1 < |hops| then Mid(hops[k].proto, hops[k + 1].service) else End(hops[k].proto)
  {
    hide IsProto, Hops, Cut;
    FirstHop(spec);
    var hops := Chain(spec);
    assert hops[k] in hops;
    assert FirstOf(hops, hops[k].service) == k;
    assert RunEnd(hops, hops[k].service, k) == k + 1;
    CutTurn(spec, hops[k].service);
    if k + 1 < |hops| { assert hops[k + 1] in hops; }
  }

  // --- Following the chain from proxy to proxy ---

  /** The service reached after n hand-overs, if the chain goes that far. */
  function Visit(spec: seq<string>, n: nat): Option<string> {
    if n == 0 then
      if |spec| >= 2 then Some(spec[1]) else None
    else
      var v := Visit(spec, n - 1);
      if v.Some? && TurnOf(spec, v.value).Mid? then Some(TurnOf(spec, v.value).next) else None
  }

  /** Each service's hops stand together. */
  predicate Contiguous(hops: seq<Hop>) {
    forall i, j, k :: 0 <= i < j < k < |hops| && hops[i].service == hops[k].service
      ==> hops[j].service == hops[i].service
  }

  /** The services in order, with immediate repetitions dropped. */
  function Stops(hops: seq<Hop>): seq<string> {
    if hops == [] then []
    else if |hops| > 1 && hops[1].service == hops[0].service then Stops(hops[1..])
    else [hops[0].service] + Stops(hops[1..])
  }

  predicate NoRepeat(s: seq<string>) {
    forall i, j :: 0 <= i < j < |s| ==> s[i] != s[j]
  }

  function IndexIn(s: seq<string>, x: string): (i: nat)
    ensures i <= |s| && (i < |s| ==> s[i] == x)
    ensures forall k :: 0 <= k < i ==> s[k] != x
  {
    if s == [] || s[0] == x then 0 else 1 + IndexIn(s[1..], x)
  }

  lemma {:induction false} StopsMember(hops: seq<Hop>, x: string)
    ensures x in Stops(hops) <==> exists k :: 0 <= k < |hops| && hops[k].service == x
    ensures hops != [] ==> Stops(hops) != [] && Stops(hops)[0] == hops[0].service
  {
    if hops != [] {
      StopsMember(hops[1..], x);
      if x in Stops(hops[1..]) {
        var k :| 0 <= k < |hops[1..]| && hops[1..][k].service == x;
        assert hops[k + 1].service == x;
      }
      if k :| 0 <= k < |hops| && hops[k].service == x {
        assert k > 0 ==> hops[1..][k - 1].service == x;
      }
    }
  }

  /** A run of one service is one stop. */
  lemma {:induction false} RunIsOneStop(hops: seq<Hop>, j: nat)
    requires 0 < j <= |hops|
    requires forall k :: 0 <= k < j ==> hops[k].service == hops[0].service
    requires j < |hops| ==> hops[j].service != hops[0].service
    ensures Stops(hops) == [hops[0].service] + Stops(hops[j..])
  {
    if j > 1 {
      RunIsOneStop(hops[1..], j - 1);
      assert hops[1..][j - 1..] == hops[j..];
    }
  }

  lemma {:induction false} RunEndShift(hops: seq<Hop>, service: string, i: nat)
    requires hops != [] && i <= |hops| - 1
    ensures RunEnd(hops, service, i + 1) == 1 + RunEnd(hops[1..], service, i)
    decreases |hops| - i
  {
    if i < |hops| - 1 && hops[i + 1].service == service {
      RunEndShift(hops, service, i + 1);
    }
  }

  /** In these hops the successor of a service is what follows it among these stops. */
  predicate SuccessorIs(hops: seq<Hop>, stops: seq<string>, service: string) {
    var p := IndexIn(stops, service);
    var i := FirstOf(hops, service);
    var j := RunEnd(hops, service, i);
    i < |hops| && if j < |hops| then p + 1 < |stops| && hops[j].service == stops[p + 1] else p + 1 == |stops|
  }

  lemma OneMoreHop(hops: seq<Hop>, stops: seq<string>, service: string)
    requires hops != [] && hops[0].service != service && SuccessorIs(hops[1..], stops, service)
    ensures SuccessorIs(hops, stops, service)
  {
    hide IndexIn;
    RunEndShift(hops, service, FirstOf(hops[1..], service));
    hide RunEnd;
  }

  lemma OneMoreStop(hops: seq<Hop>, stops: seq<string>, service: string, x: string)
    requires x != service && SuccessorIs(hops, stops, service)
    ensures SuccessorIs(hops, [x] + stops, service)
  {
    hide RunEnd, FirstOf;
    assert ([x] + stops)[1..] == stops;
  }

  lemma StopsOfRest(hops: seq<Hop>)
    requires hops != []
    ensures Stops(hops) == Stops(hops[1..]) || Stops(hops) == [hops[0].service] + Stops(hops[1..])
  {}

  /** A handler's successor is the stop after the first occurrence of its own. */
  lemma {:induction false} NextStop(hops: seq<Hop>, service: string)
    requires service in Stops(hops)
    ensures SuccessorIs(hops, Stops(hops), service)
  {
    StopsMember(hops, service);
    if hops[0].service == service {
      var j := RunEnd(hops, service, 0);
      RunIsOneStop(hops, j);
      StopsMember(hops[j..], service);
    } else {
      var rest := hops[1..];
      StopsOfRest(hops);
      hide SuccessorIs, Stops;
      NextStop(rest, service);
      OneMoreHop(hops, Stops(rest), service);
      OneMoreStop(hops, Stops(rest), service, hops[0].service);
    }
  }

  lemma NoRepeatCons(x: string, s: seq<string>)
    ensures NoRepeat([x] + s) <==> x !in s && NoRepeat(s)
  {
    var t := [x] + s;
    assert forall k :: 0 <= k < |s| ==> t[k + 1] == s[k];
    if NoRepeat(t) {
      forall i, j | 0 <= i < j < |s| ensures s[i] != s[j] {
        assert t[i + 1] != t[j + 1];
      }
      forall k | 0 <= k < |s| ensures s[k] != x {
        assert t[0] != t[k + 1];
      }
    }
  }

  lemma ContiguousSkip(hops: seq<Hop>)
    requires |hops| > 1 && hops[1].service == hops[0].service
    ensures Contiguous(hops) <==> Contiguous(hops[1..])
  {
    var rest := hops[1..];
    assert forall k :: 0 <= k < |rest| ==> rest[k] == hops[k + 1];
    if Contiguous(hops) {
      forall i, j, k | 0 <= i < j < k < |rest| && rest[i].service == rest[k].service
        ensures rest[j].service == rest[i].service
      {
        assert hops[j + 1].service == hops[i + 1].service;
      }
    }
    if Contiguous(rest) {
      forall i, j, k | 0 <= i < j < k < |hops| && hops[i].service == hops[k].service
        ensures hops[j].service == hops[i].service
      {
        var i' := if i == 0 then 1 else i;
        if j > 1 { assert rest[i' - 1].service == rest[k - 1].service && rest[j - 1] == hops[j]; }
      }
    }
  }

  lemma ContiguousNew(hops: seq<Hop>)
    requires hops != [] && (|hops| > 1 ==> hops[1].service != hops[0].service)
    ensures Contiguous(hops) <==>
              Contiguous(hops[1..]) && forall k :: 0 <= k < |hops[1..]| ==> hops[1..][k].service != hops[0].service
  {
    var rest := hops[1..];
    assert forall k :: 0 <= k < |rest| ==> rest[k] == hops[k + 1];
    if Contiguous(hops) {
      forall i, j, k | 0 <= i < j < k < |rest| && rest[i].service == rest[k].service
        ensures rest[j].service == rest[i].service
      {
        assert hops[j + 1].service == hops[i + 1].service;
      }
      forall k | 0 <= k < |rest| ensures rest[k].service != hops[0].service {
        assert hops[k + 1] == rest[k];
      }
    }
    if Contiguous(rest) && forall k :: 0 <= k < |rest| ==> rest[k].service != hops[0].service {
      forall i, j, k | 0 <= i < j < k < |hops| && hops[i].service == hops[k].service
        ensures hops[j].service == hops[i].service
      {
        assert rest[k - 1] == hops[k];
        assert rest[j - 1].service == rest[i - 1].service;
      }
    }
  }

  lemma {:induction false} ContiguousIffNoRepeat(hops: seq<Hop>)
    ensures Contiguous(hops) <==> NoRepeat(Stops(hops))
  {
    if hops != [] {
      var rest, x := hops[1..], hops[0].service;
      ContiguousIffNoRepeat(rest);
      StopsMember(rest, x);
      if rest != [] && rest[0].service == x {
        ContiguousSkip(hops);
      } else {
        ContiguousNew(hops);
        assert Stops(hops)[1..] == Stops(rest);
        NoRepeatCons(x, Stops(rest));
      }
    }
  }

  lemma StopIsHop(spec: seq<string>, service: string)
    requires WellFormed(spec) && service in Stops(Chain(spec))
    ensures service != "" && FirstOf(Chain(spec), service) < |Chain(spec)|
  {
    FirstHop(spec);
    StopsMember(Chain(spec), service);
    hide WellFormed, Chain, Stops;
    var hop := Chain(spec)[FirstOf(Chain(spec), service)];
    assert hop in Chain(spec);
  }

  /** The first occurrence of a stop hands over to the stop after it. */
  lemma StopTurn(spec: seq<string>, p: nat)
    requires WellFormed(spec)
    requires var c := Stops(Chain(spec)); p < |c| && IndexIn(c, c[p]) == p
    ensures var (c, t) := (Stops(Chain(spec)), TurnOf(spec, Stops(Chain(spec))[p]));
            if p + 1 < |c| then t.Mid? && t.next == c[p + 1] else t.End?
  {
    var hops := Chain(spec);
    var service := Stops(hops)[p];
    FirstHop(spec);
    StopIsHop(spec, service);
    hide WellFormed, IsProto, Hops, Cut, Stops;
    NextStop(hops, service);
    CutTurn(spec, service);
    var j := RunEnd(hops, service, FirstOf(hops, service));
    if j < |hops| { assert hops[j] in hops; }
  }

  /** The stop reached after n hand-overs, when all handed-over stops are first occurrences. */
  lemma StepToNextStop(spec: seq<string>, n: nat, p: nat)
    requires WellFormed(spec)
    requires var c := Stops(Chain(spec)); p < |c| && Visit(spec, n) == Some(c[p]) && IndexIn(c, c[p]) == p
    ensures var c := Stops(Chain(spec)); Visit(spec, n + 1) == if p + 1 < |c| then Some(c[p + 1]) else None
  {
    StopTurn(spec, p);
    hide WellFormed, Chain, Stops, IndexIn, TurnOf;
  }

  lemma FirstVisit(spec: seq<string>)
    requires WellFormed(spec)
    ensures var c := Stops(Chain(spec)); c != [] && Visit(spec, 0) == Some(c[0])
  {
    FirstHop(spec);
    StopsMember(Chain(spec), spec[1]);
  }

  lemma FirstOccurrence(c: seq<string>, m: nat, p: nat)
    requires p < m <= |c| && NoRepeat(c[..m])
    ensures IndexIn(c, c[p]) == p
  {
    var i := IndexIn(c, c[p]);
    assert i <= p;
    assert c[..m][i] == c[..m][p];
  }

  /** As long as no stop has come twice, hand-over n reaches stop n. */
  lemma {:induction false} VisitsInOrder(spec: seq<string>, m: nat, n: nat)
    requires WellFormed(spec)
    requires var c := Stops(Chain(spec)); n <= m <= |c| && NoRepeat(c[..m])
    ensures var c := Stops(Chain(spec)); Visit(spec, n) == if n < |c| then Some(c[n]) else None
  {
    hide WellFormed, Chain, Stops, Visit;
    var c := Stops(Chain(spec));
    FirstVisit(spec);
    if n > 0 {
      VisitsInOrder(spec, m, n - 1);
      FirstOccurrence(c, m, n - 1);
      StepToNextStop(spec, n - 1, n - 1);
    }
  }

  /** A contiguous chain visits every distinct service once, in order, and then stops. */
  lemma {:induction false} ContiguousVisits(spec: seq<string>, n: nat)
    requires WellFormed(spec) && Contiguous(Chain(spec))
    ensures var c := Stops(Chain(spec)); Visit(spec, n) == if n < |c| then Some(c[n]) else None
  {
    var c := Stops(Chain(spec));
    ContiguousIffNoRepeat(Chain(spec));
    assert c[..|c|] == c;
    if n <= |c| {
      VisitsInOrder(spec, |c|, n);
    } else {
      ContiguousVisits(spec, n - 1);
    }
  }

  /** The first stop that has come before, and where it came. */
  lemma {:induction false} FirstRepeat(c: seq<string>) returns (i: nat, j: nat)
    requires !NoRepeat(c)
    ensures i < j < |c| && c[i] == c[j] && NoRepeat(c[..j])
  {
    var m := |c| - 1;
    if !NoRepeat(c[..m]) {
      i, j := FirstRepeat(c[..m]);
      assert c[..m][..j] == c[..j];
    } else {
      j := m;
      assert forall k :: 0 <= k < m ==> c[..m][k] == c[k];
      var a, b :| 0 <= a < b < |c| && c[a] == c[b];
      i := a;
    }
  }

  lemma {:induction false} SameVisitSameFuture(spec: seq<string>, i: nat, j: nat, k: nat)
    requires Visit(spec, i) == Visit(spec, j)
    ensures Visit(spec, i + k) == Visit(spec, j + k)
  {
    hide TurnOf;
    if k > 0 { SameVisitSameFuture(spec, i, j, k - 1); }
  }

  lemma {:induction false} LoopNeverEnds(spec: seq<string>, i: nat, j: nat, n: nat)
    requires WellFormed(spec)
    requires var c := Stops(Chain(spec)); i < j < |c| && c[i] == c[j] && NoRepeat(c[..j])
    ensures Visit(spec, n).Some?
  {
    hide WellFormed, Chain, Stops, Visit;
    if n <= j {
      VisitsInOrder(spec, j, n);
    } else {
      LoopNeverEnds(spec, i, j, n - (j - i));
      VisitsInOrder(spec, j, i);
      VisitsInOrder(spec, j, j);
      SameVisitSameFuture(spec, i, j, n - j);
    }
  }

  /** A chain that is not contiguous comes back to a service and repeats from there for ever. */
  lemma LoopedVisits(spec: seq<string>) returns (i: nat, j: nat)
    requires WellFormed(spec) && !Contiguous(Chain(spec))
    ensures i < j && Visit(spec, i) == Visit(spec, j)
    ensures forall n: nat :: Visit(spec, n).Some?
    ensures forall n: nat :: i <= n ==> Visit(spec, n) == Visit(spec, n + (j - i))
  {
    hide WellFormed, Chain, Stops, Visit, Contiguous;
    ContiguousIffNoRepeat(Chain(spec));
    i, j := FirstRepeat(Stops(Chain(spec)));
    VisitsInOrder(spec, j, i);
    VisitsInOrder(spec, j, j);
    forall n: nat ensures Visit(spec, n).Some? {
      LoopNeverEnds(spec, i, j, n);
    }
    forall n: nat | i <= n ensures Visit(spec, n) == Visit(spec, n + (j - i)) {
      SameVisitSameFuture(spec, i, j, n - i);
    }
  }

  /** Following the chain comes to an end exactly when each service's hops stand together. */
  lemma ChainEndsIffContiguous(spec: seq<string>)
    requires WellFormed(spec)
    ensures (exists n: nat :: Visit(spec, n).None?) <==> Contiguous(Chain(spec))
  {
    if Contiguous(Chain(spec)) {
      ContiguousVisits(spec, |Stops(Chain(spec))|);
    } else {
      var i, j := LoopedVisits(spec);
    }
  }

  /** Two specifications that agree up to their first empty tokens turn alike at every stop. */
  lemma SameTurn(spec: seq<string>, other: seq<string>, service: string)
    requires WellFormed(spec) && WellFormed(other) && Cut(spec) == Cut(other) && service in Stops(Chain(spec))
    ensures TurnOf(spec, service) == TurnOf(other, service)
    ensures TurnOf(spec, service).Mid? ==> TurnOf(spec, service).next in Stops(Chain(spec))
  {
    StopIsHop(spec, service);
    CutTurn(spec, service);
    CutTurn(other, service);
    if TurnOf(spec, service).Mid? { StopsMember(Chain(spec), TurnOf(spec, service).next); }
  }

  /** What stands behind an empty token is never visited: only the part before it matters. */
  lemma {:induction false} TailIsIgnored(spec: seq<string>, other: seq<string>, n: nat)
    requires WellFormed(spec) && WellFormed(other) && Cut(spec) == Cut(other)
    ensures Visit(spec, n) == Visit(other, n)
    ensures Visit(spec, n).Some? ==> Visit(spec, n).value in Stops(Chain(spec))
  {
    if n == 0 {
      FirstVisit(spec);
      FirstVisit(other);
    } else {
      hide WellFormed, Cut, Chain, Stops, TurnOf;
      TailIsIgnored(spec, other, n - 1);
      if Visit(spec, n - 1).Some? { SameTurn(spec, other, Visit(spec, n - 1).value); }
    }
  }

  lemma LoopHops(a: string, b: string)
    requires a != "" && b != "" && !IsProto(a) && !IsProto(b)
    ensures var spec := ["tcp", a, b, a];
            Cut(spec) == spec && Chain(spec) == [Hop("tcp", a), Hop("tcp", b), Hop("tcp", a)]
  {
    var spec := ["tcp", a, b, a];
    assert IsProto("tcp");
    hide IsProto;
    assert Cut(spec) == spec by { assert forall k :: 0 <= k < |spec| ==> spec[k] != ""; }
    assert spec[1..] == [a, b, a] && [a, b, a][1..] == [b, a] && [b, a][1..] == [a];
    HopsOfOne(a, "tcp");
    assert Hops([b, a], "tcp") == [Hop("tcp", b)] + Hops([a], "tcp");
    assert Hops([a, b, a], "tcp") == [Hop("tcp", a)] + Hops([b, a], "tcp");
  }

  lemma LoopTurns(a: string, b: string)
    requires a != b && a != "" && b != "" && !IsProto(a) && !IsProto(b)
    ensures var spec := ["tcp", a, b, a]; WellFormed(spec) && !Contiguous(Chain(spec))
    ensures TurnOf(["tcp", a, b, a], a) == Mid("tcp", b) && TurnOf(["tcp", a, b, a], b) == Mid("tcp", a)
  {
    LoopHops(a, b);
    var hops := [Hop("tcp", a), Hop("tcp", b), Hop("tcp", a)];
    hide Hops, Cut, IsProto;
    assert hops[0].service == hops[2].service && hops[1].service != hops[0].service;
    assert FirstOf(hops, a) == 0 && RunEnd(hops, a, 0) == 1;
    assert FirstOf(hops, b) == 1 && RunEnd(hops, b, 1) == 2;
  }

  /** The smallest chain without an end: a hands over to b, and b to a. */
  lemma {:induction false} BackAndForth(a: string, b: string, n: nat)
    requires a != b && a != "" && b != "" && !IsProto(a) && !IsProto(b)
    ensures var spec := ["tcp", a, b, a]; WellFormed(spec) && !Contiguous(Chain(spec))
    ensures Visit(["tcp", a, b, a], n) == Some(if n % 2 == 0 then a else b)
  {
    hide WellFormed, Chain, Contiguous, TurnOf, IsProto;
    LoopTurns(a, b);
    if n > 0 { BackAndForth(a, b, n - 1); }
  }
}
