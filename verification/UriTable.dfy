/** URI paths as chain specifications, and the table of forwarders keyed by the joined specification. */
module UriTable {
  import ChainSpec
  import opened Common

  predicate SlashFree(token: string) {
    '/' !in token
  }

  function Join(tokens: seq<string>): string {
    if tokens == [] then ""
    else if |tokens| == 1 then tokens[0]
    else tokens[0] + "/" + Join(tokens[1..])
  }

  function Split(s: string): (tokens: seq<string>)
    ensures tokens != [] && forall t :: t in tokens ==> SlashFree(t)
  {
    if s == "" then [""]
    else
      var rest := Split(s[1..]);
      if s[0] == '/' then [""] + rest
      else
        assert rest[0] in rest && forall t :: t in rest[1..] ==> t in rest;
        assert SlashFree([s[0]] + rest[0]);
        [[s[0]] + rest[0]] + rest[1..]
  }

  /** TrimPrefix and TrimSuffix: one slash at either end. */
  function Trimmed(path: string): string {
    var p := if path != "" && path[0] == '/' then path[1..] else path;
    if p != "" && p[|p| - 1] == '/' then p[..|p| - 1] else p
  }

  function SplitUriPath(path: string): (tokens: seq<string>)
    ensures forall t :: t in tokens ==> SlashFree(t)
  {
    var tokens := Split(Trimmed(path));
    if tokens[0] == "" then [] else tokens
  }

  lemma {:induction false} SplitPrefixed(token: string, rest: string)
    requires SlashFree(token)
    ensures Split(token + "/" + rest) == [token] + Split(rest)
    ensures Split(token) == [token]
  {
    var s := token + "/" + rest;
    if token == "" {
      assert s == "/" + rest && s[1..] == rest;
    } else {
      assert s[1..] == token[1..] + "/" + rest;
      SplitPrefixed(token[1..], rest);
      assert [s[0]] + token[1..] == token;
      assert token == [token[0]] + token[1..];
    }
  }

  /** Joining slash-free tokens loses nothing: splitting gives them back. */
  lemma {:induction false} SplitJoin(tokens: seq<string>)
    requires tokens != [] && forall t :: t in tokens ==> SlashFree(t)
    ensures Split(Join(tokens)) == tokens
  {
    if |tokens| == 1 {
      SplitPrefixed(tokens[0], "");
    } else {
      SplitJoin(tokens[1..]);
      SplitPrefixed(tokens[0], Join(tokens[1..]));
    }
  }

  /** Hence two specifications with the same key are the same. */
  lemma JoinInjective(a: seq<string>, b: seq<string>)
    requires a != [] && b != [] && (forall t :: t in a ==> SlashFree(t)) && (forall t :: t in b ==> SlashFree(t))
    requires Join(a) == Join(b)
    ensures a == b
  {
    SplitJoin(a);
    SplitJoin(b);
  }

  lemma {:induction false} JoinEnds(tokens: seq<string>)
    requires tokens != [] && forall t :: t in tokens ==> SlashFree(t)
    ensures tokens[0] != "" ==> Join(tokens) != "" && Join(tokens)[0] != '/'
    ensures tokens[|tokens| - 1] != "" ==> Join(tokens) != "" && Join(tokens)[|Join(tokens)| - 1] != '/'
  {
    var first := tokens[0];
    assert first in tokens && (first != "" ==> first[0] in first && first[|first| - 1] in first);
    if |tokens| > 1 {
      JoinEnds(tokens[1..]);
      var rest := Join(tokens[1..]);
      assert Join(tokens) == first + "/" + rest;
      assert rest != "" ==> Join(tokens)[|Join(tokens)| - 1] == rest[|rest| - 1];
    }
  }

  lemma OuterSlashes(j: string)
    requires j != "" && j[0] != '/'
    ensures Trimmed("/" + j + "/") == j
    ensures j[|j| - 1] != '/' ==> Trimmed(j) == Trimmed("/" + j) == j
  {
    assert ("/" + j)[1..] == j;
    assert ("/" + j + "/")[1..] == j + "/";
    assert (j + "/")[..|j|] == j;
  }

  /** Tokens that begin and end non-empty, written as a path with or without the outer slashes, are read back. */
  lemma PathRoundTrip(tokens: seq<string>)
    requires tokens != [] && tokens[0] != "" && tokens[|tokens| - 1] != "" && forall t :: t in tokens ==> SlashFree(t)
    ensures SplitUriPath(Join(tokens)) == SplitUriPath("/" + Join(tokens)) == tokens
    ensures SplitUriPath("/" + Join(tokens) + "/") == tokens
  {
    JoinEnds(tokens);
    SplitJoin(tokens);
    OuterSlashes(Join(tokens));
    hide Join, Split, Trimmed, SlashFree;
  }

  /** Only one slash is taken off at either end: an empty last token is kept. */
  lemma OneSlashIsTrimmed(tokens: seq<string>)
    requires tokens != [] && tokens[0] != "" && forall t :: t in tokens ==> SlashFree(t)
    ensures SplitUriPath("/" + Join(tokens) + "/") == tokens
  {
    JoinEnds(tokens);
    SplitJoin(tokens);
    OuterSlashes(Join(tokens));
    hide Join, Split, Trimmed, SlashFree;
  }

  lemma SplitHead(s: string)
    ensures Split(s)[0] == "" <==> s == "" || s[0] == '/'
  {}

  /** A path names nothing exactly when it is empty, a slash, or begins with two. */
  lemma NothingNamed(path: string)
    ensures SplitUriPath(path) == [] <==> path == "" || path == "/" || "//" <= path
  {
    SplitHead(Trimmed(path));
    hide Split;
    assert path != "" && path[0] == '/' && |path| > 1 && path[1] == '/' <==> "//" <= path;
  }

  /** The entry that stays in the table: the chain's transport and the address of its listening socket. */
  datatype Forwarder = Forwarder(transport: string, listenAddr: string)

  /** serv2Fwd, and the keys of the forwarders whose socket is still open. */
  datatype Table = Table(serv2Fwd: map<string, Forwarder>, listening: set<string>)

  const EMPTY := Table(map[], {})

  /** An open socket of this transport has this address. */
  ghost predicate InUse(t: Table, f: Forwarder) {
    exists k :: k in t.listening && k in t.serv2Fwd && t.serv2Fwd[k] == f
  }

  /**
   * openTCPProxy and openUDPProxy, given the address of a new listening socket if one can be had. The
   * system hands out no address on which an open socket of the same transport listens.
   */
  ghost function Opened(t: Table, spec: seq<string>, listen: Option<string>): Table
    requires spec != []
  {
    if Join(spec) in t.serv2Fwd || listen.None? || InUse(t, Forwarder(spec[0], listen.value)) then t
    else Table(t.serv2Fwd[Join(spec) := Forwarder(spec[0], listen.value)], t.listening + {Join(spec)})
  }

  /** A service proxy ends and closes its socket; nobody removes its entry. */
  function ShutDown(t: Table, key: string): Table {
    t.(listening := t.listening - {key})
  }

  class ForwarderTable {
    var serv2Fwd: map<string, Forwarder>
    ghost var listening: set<string>

    ghost function State(): Table
      reads this
    {
      Table(serv2Fwd, listening)
    }

    constructor ()
      ensures State() == EMPTY
    {
      serv2Fwd, listening := map[], {};
    }

    method OpenProxy(chainSpec: seq<string>, listen: Option<string>) returns (addr: Option<string>)
      requires chainSpec != []
      requires listen.Some? ==> !InUse(State(), Forwarder(chainSpec[0], listen.value))
      modifies this
      ensures State() == Opened(old(State()), chainSpec, listen)
      ensures addr == if Join(chainSpec) in serv2Fwd then Some(serv2Fwd[Join(chainSpec)].listenAddr) else None
    {
      var serviceKey := Join(chainSpec);
      if serviceKey !in serv2Fwd {
        if listen.None? {
          return None;
        }
        serv2Fwd := serv2Fwd[serviceKey := Forwarder(chainSpec[0], listen.value)];
        listening := listening + {serviceKey};
        return listen;
      }
      return Some(serv2Fwd[serviceKey].listenAddr);
    }
  }

  /** An HTTP request for a chain, with the address that a new socket would get; or a service proxy's end. */
  datatype Event = Request(path: string, listen: Option<string>) | End(key: string)

  /** requestHandler turns away what names no transport and service. */
  ghost function OnEvent(t: Table, e: Event): Table {
    match e
    case Request(path, listen) =>
      var spec := SplitUriPath(path);
      if |spec| < 2 || !ChainSpec.IsProto(spec[0]) then t else Opened(t, spec, listen)
    case End(key) => ShutDown(t, key)
  }

  ghost function After(events: seq<Event>): Table {
    if events == [] then EMPTY else OnEvent(After(events[..|events| - 1]), events[|events| - 1])
  }

  /** Open sockets of one transport have addresses of their own, and each belongs to an entry. */
  ghost predicate Inv(t: Table) {
    (forall k :: k in t.listening ==> k in t.serv2Fwd) &&
    (forall j, k :: j in t.listening && k in t.listening && t.serv2Fwd[j] == t.serv2Fwd[k] ==> j == k) &&
    forall k :: k in t.serv2Fwd ==> t.serv2Fwd[k].transport == Split(k)[0]
  }

  lemma OpenedKeepsInv(t: Table, spec: seq<string>, listen: Option<string>)
    requires Inv(t) && spec != [] && forall s :: s in spec ==> SlashFree(s)
    ensures Inv(Opened(t, spec, listen))
  {
    SplitJoin(spec);
    hide Join, Split, SlashFree;
  }

  lemma EventKeepsInv(t: Table, e: Event)
    requires Inv(t)
    ensures Inv(OnEvent(t, e))
  {
    hide SlashFree, SplitUriPath, Opened;
    if e.Request? && |SplitUriPath(e.path)| >= 2 {
      OpenedKeepsInv(t, SplitUriPath(e.path), e.listen);
    }
  }

  lemma EmptyInv()
    ensures Inv(EMPTY)
  {}

  lemma {:induction false} Reachable(events: seq<Event>)
    ensures Inv(After(events))
  {
    hide Inv, OnEvent;
    EmptyInv();
    if events != [] {
      Reachable(events[..|events| - 1]);
      EventKeepsInv(After(events[..|events| - 1]), events[|events| - 1]);
    }
  }

  /** Live forwarders of one transport never share an address, whatever has been opened and closed. */
  lemma LiveChainsDoNotShare(events: seq<Event>, a: seq<string>, b: seq<string>)
    requires a != [] && b != [] && (forall s :: s in a ==> SlashFree(s)) && (forall s :: s in b ==> SlashFree(s))
    requires var t := After(events); Join(a) in t.listening && Join(b) in t.listening
    ensures var fwd := After(events).serv2Fwd;
            && Join(a) in fwd && Join(b) in fwd
            && (fwd[Join(a)].listenAddr == fwd[Join(b)].listenAddr && a[0] == b[0] ==> a == b)
  {
    Reachable(events);
    SplitJoin(a);
    SplitJoin(b);
    hide After, Split, Join;
  }

  /** A step keeps every entry, opens no socket again, and gives a new entry an address not in use. */
  lemma EventFacts(t: Table, e: Event)
    ensures var t' := OnEvent(t, e);
            && (forall k :: k in t.serv2Fwd ==> k in t'.serv2Fwd && t'.serv2Fwd[k] == t.serv2Fwd[k])
            && (forall k :: k in t.serv2Fwd && k in t'.listening ==> k in t.listening)
            && (forall j, k :: j in t.serv2Fwd && k in t'.serv2Fwd && k !in t.serv2Fwd ==>
                  t'.serv2Fwd[k] == t.serv2Fwd[j] ==> j !in t'.listening)
  {
    hide SplitUriPath, Join;
  }

  lemma AfterLast(events: seq<Event>)
    requires events != []
    ensures After(events) == OnEvent(After(events[..|events| - 1]), events[|events| - 1])
  {}

  /** An address once handed out for a chain stays its address, and its socket once closed stays closed. */
  lemma {:induction false} AddressIsStable(events: seq<Event>, n: nat, key: string)
    requires n <= |events| && key in After(events[..n]).serv2Fwd
    ensures var (before, t) := (After(events[..n]), After(events));
            && key in t.serv2Fwd && t.serv2Fwd[key] == before.serv2Fwd[key]
            && (key in t.listening ==> key in before.listening)
  {
    if n < |events| {
      var m := |events| - 1;
      assert events[..m][..n] == events[..n];
      AddressIsStable(events[..m], n, key);
      EventFacts(After(events[..m]), events[m]);
      AfterLast(events);
    } else {
      assert events[..n] == events;
    }
  }

  /**
   * Two entries of one transport have the same address only if the socket of the one made earlier had
   * closed by the time the other was made, and so stays closed.
   */
  lemma {:induction false} SharedOnlyAfterClose(events: seq<Event>, n: nat, a: string, b: string)
    requires n <= |events| && a in After(events[..n]).serv2Fwd && b !in After(events[..n]).serv2Fwd
    requires var fwd := After(events).serv2Fwd; a in fwd && b in fwd && fwd[a] == fwd[b]
    ensures a !in After(events).listening
  {
    assert events[..|events|] == events;
    var m := |events| - 1;
    assert events[..m][..n] == events[..n];
    AddressIsStable(events[..m], n, a);
    EventFacts(After(events[..m]), events[m]);
    AfterLast(events);
    if b in After(events[..m]).serv2Fwd {
      SharedOnlyAfterClose(events[..m], n, a, b);
    }
  }

  /** A request makes an entry exactly when it names a transport and more, has none yet, and a socket can be had. */
  lemma RequestOpensIff(t: Table, path: string, listen: Option<string>)
    ensures var (spec, t') := (SplitUriPath(path), OnEvent(t, Request(path, listen)));
            t' != t <==>
              && |spec| >= 2 && (spec[0] == "tcp" || spec[0] == "udp") && Join(spec) !in t.serv2Fwd
              && listen.Some? && !InUse(t, Forwarder(spec[0], listen.value))
  {
    hide SplitUriPath, Join, InUse;
  }

  /** What a request for a chain can name: a transport, services, no slashes. */
  predicate Nameable(spec: seq<string>) {
    |spec| >= 2 && ChainSpec.IsProto(spec[0]) && forall s :: s in spec ==> SlashFree(s) && s != ""
  }

  function RequestFor(spec: seq<string>, addr: string): Event {
    Request("/" + Join(spec), Some(addr))
  }

  lemma RequestOpens(t: Table, spec: seq<string>, addr: string)
    requires Nameable(spec)
    ensures OnEvent(t, RequestFor(spec, addr)) == Opened(t, spec, Some(addr))
  {
    assert spec[0] in spec && spec[|spec| - 1] in spec;
    PathRoundTrip(spec);
  }

  lemma AfterOne(e: Event)
    ensures After([e]) == OnEvent(EMPTY, e)
  {
    assert [e][..0] == [];
  }

  lemma AfterMore(events: seq<Event>, e: Event)
    ensures After(events + [e]) == OnEvent(After(events), e)
  {
    assert (events + [e])[..|events|] == events;
  }

  /** So any two chains of one transport may come to share an address, where only the second still listens. */
  lemma FreedAddressIsReused(a: seq<string>, b: seq<string>, addr: string)
    requires Nameable(a) && Nameable(b) && a != b && a[0] == b[0]
    ensures var t := After([RequestFor(a, addr)] + [End(Join(a))] + [RequestFor(b, addr)]);
            && Join(a) in t.serv2Fwd && Join(b) in t.serv2Fwd && t.serv2Fwd[Join(a)] == t.serv2Fwd[Join(b)]
            && t.listening == {Join(b)}
  {
    if Join(a) == Join(b) { JoinInjective(a, b); }
    AfterOne(RequestFor(a, addr));
    AfterMore([RequestFor(a, addr)], End(Join(a)));
    AfterMore([RequestFor(a, addr)] + [End(Join(a))], RequestFor(b, addr));
    RequestOpens(EMPTY, a, addr);
    var closed := After([RequestFor(a, addr)] + [End(Join(a))]);
    RequestOpens(closed, b, addr);
    hide After, OnEvent, Join;
    assert closed == Table(map[Join(a) := Forwarder(a[0], addr)], {});
  }

  /** A TCP and a UDP chain may listen on the same address at the same time. */
  lemma TransportsMayShare(a: seq<string>, b: seq<string>, addr: string)
    requires Nameable(a) && Nameable(b) && a[0] != b[0]
    ensures var t := After([RequestFor(a, addr)] + [RequestFor(b, addr)]);
            && t.listening == {Join(a), Join(b)} && Join(a) in t.serv2Fwd && Join(b) in t.serv2Fwd
            && t.serv2Fwd[Join(a)].listenAddr == t.serv2Fwd[Join(b)].listenAddr == addr
  {
    if Join(a) == Join(b) { JoinInjective(a, b); }
    AfterOne(RequestFor(a, addr));
    AfterMore([RequestFor(a, addr)], RequestFor(b, addr));
    RequestOpens(EMPTY, a, addr);
    RequestOpens(After([RequestFor(a, addr)]), b, addr);
    hide After, OnEvent, Join;
  }
}
