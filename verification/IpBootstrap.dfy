/**
  Address service discovery: the network list built from a bootstrap file and its
  first-match scan, against the longest match that section 5 of RFC 9224 asks for.
*/
module IpBootstrap {
  import opened Arith
  import opened BootstrapFile
  import opened Wrappers

  function Width(v6: bool): nat { if v6 then 128 else 32 }

  /** An address: family and its 32 or 128 bits as a number. */
  datatype RawAddress = RawAddress(v6: bool, bits: nat)

  type Address = a: RawAddress | a.bits < Pow2(Width(a.v6)) witness RawAddress(false, 0)

  /** A CIDR prefix: the `length` leading bits as a number. */
  datatype RawNetwork = RawNetwork(v6: bool, length: nat, head: nat)

  type Network = n: RawNetwork | n.length <= Width(n.v6) && n.head < Pow2(n.length) witness RawNetwork(false, 0, 0)

  /** `x` without its `n` low bits. */
  function DropBits(x: nat, n: nat): nat {
    if n == 0 then x else DropBits(x / 2, n - 1)
  }

  lemma DoubledBounds(x: nat, rest: nat, half: nat)
    requires rest * half <= x / 2 < rest * half + half
    ensures rest * (2 * half) <= x < rest * (2 * half) + 2 * half
  {
    assert rest * (2 * half) == 2 * (rest * half);
  }

  /** Dropping `n` bits is dividing by the `n`-th power of two. */
  lemma {:induction false} DropBitsDivides(x: nat, n: nat)
    ensures DropBits(x, n) * Pow2(n) <= x < DropBits(x, n) * Pow2(n) + Pow2(n)
  {
    if n > 0 {
      DropBitsDivides(x / 2, n - 1);
      DoubledBounds(x, DropBits(x / 2, n - 1), Pow2(n - 1));
    }
  }

  predicate Contains(n: Network, a: Address) {
    n.v6 == a.v6 && DropBits(a.bits, Width(n.v6) - n.length) == n.head
  }

  lemma QuotientsOrdered(q: nat, r: nat, p: nat, x: nat)
    requires q < r && x < q * p + p
    ensures x < r * p
  {
    var more := r - q - 1;
    assert r * p == q * p + p + more * p;
  }

  /** A prefix holds exactly the addresses of its range, out of 2^32 or 2^128. */
  lemma ContainsIsRange(n: Network, a: Address)
    ensures var size := Pow2((if n.v6 then 128 else 32) - n.length);
            Contains(n, a) <==> n.v6 == a.v6 && n.head * size <= a.bits < n.head * size + size
  {
    var rest := Width(n.v6) - n.length;
    var size, head := Pow2(rest), DropBits(a.bits, rest);
    DropBitsDivides(a.bits, rest);
    if head < n.head { QuotientsOrdered(head, n.head, size, a.bits); }
    if n.head < head && a.bits < n.head * size + size { QuotientsOrdered(n.head, head, size, a.bits); }
  }

  /** `wide` contains `narrow`: the same prefix or a shorter one. */
  predicate Covers(wide: Network, narrow: Network) {
    wide.v6 == narrow.v6 && wide.length <= narrow.length
        && DropBits(narrow.head, narrow.length - wide.length) == wide.head
  }

  // ── Prefixes are nested or disjoint ───────────────────────────────────────────

  lemma {:induction false} DropTwice(x: nat, i: nat, j: nat)
    ensures DropBits(DropBits(x, i), j) == DropBits(x, i + j)
  {
    if i > 0 { DropTwice(x / 2, i - 1, j); }
  }

  /** An address of a network is in a wider one exactly when that one covers the network. */
  lemma CoveringContains(wide: Network, narrow: Network, a: Address)
    requires wide.length <= narrow.length && Contains(narrow, a)
    ensures Contains(wide, a) <==> Covers(wide, narrow)
  {
    if wide.v6 == narrow.v6 {
      DropTwice(a.bits, Width(wide.v6) - narrow.length, narrow.length - wide.length);
    }
  }

  /** Two networks that share an address are nested. */
  lemma NestedOrDisjoint(m: Network, n: Network, a: Address)
    requires Contains(m, a) && Contains(n, a)
    ensures if m.length <= n.length then Covers(m, n) else Covers(n, m)
  {
    if m.length <= n.length { CoveringContains(m, n, a); } else { CoveringContains(n, m, a); }
  }

  // ── Covering a network by several others ──────────────────────────────────────

  function Half(n: Network, bit: nat): Network
    requires n.length < Width(n.v6) && bit < 2
  {
    RawNetwork(n.v6, n.length + 1, 2 * n.head + bit)
  }

  lemma HalvesPartition(n: Network, a: Address)
    requires n.length < Width(n.v6)
    ensures Contains(n, a) <==> Contains(Half(n, 0), a) || Contains(Half(n, 1), a)
  {
    var rest := Width(n.v6) - n.length - 1;
    DropTwice(a.bits, rest, 1);
    assert DropBits(DropBits(a.bits, rest), 1) == DropBits(a.bits, rest) / 2;
  }

  /** Some network of the list covers `n`, or both halves of `n` are blanketed in turn. */
  predicate Blanketed(nets: seq<Network>, n: Network)
    decreases Width(n.v6) - n.length
  {
    || (exists m | m in nets :: Covers(m, n))
    || (n.length < Width(n.v6) && Blanketed(nets, Half(n, 0)) && Blanketed(nets, Half(n, 1)))
  }

  predicate Hit(nets: seq<Network>, a: Address) { exists n | n in nets :: Contains(n, a) }

  lemma {:induction false} BlanketedIsHit(nets: seq<Network>, n: Network, a: Address)
    requires Blanketed(nets, n) && Contains(n, a)
    ensures Hit(nets, a)
    decreases Width(n.v6) - n.length
  {
    if m :| m in nets && Covers(m, n) {
      CoveringContains(m, n, a);
    } else {
      HalvesPartition(n, a);
      BlanketedIsHit(nets, Half(n, if Contains(Half(n, 0), a) then 0 else 1), a);
    }
  }

  lemma {:induction false} BareIsMissed(nets: seq<Network>, n: Network) returns (a: Address)
    requires !Blanketed(nets, n)
    ensures Contains(n, a) && !Hit(nets, a)
    decreases Width(n.v6) - n.length
  {
    if n.length == Width(n.v6) {
      a := RawAddress(n.v6, n.head);
      forall m | m in nets ensures !Contains(m, a) {
        if m.v6 == n.v6 { CoveringContains(m, n, a); }
      }
    } else {
      a := BareIsMissed(nets, Half(n, if Blanketed(nets, Half(n, 0)) then 1 else 0));
      HalvesPartition(n, a);
    }
  }

  // ── First match and longest match ─────────────────────────────────────────────

  datatype Route = Route(network: Network, server: string)

  function FirstMatch(routes: seq<Route>, a: Address): Option<Route> {
    if routes == [] then None
    else if Contains(routes[0].network, a) then Some(routes[0])
    else FirstMatch(routes[1..], a)
  }

  function MatchIp(routes: seq<Route>, a: Address): (answer: Result<string, RdapError>)
    ensures answer.Err? ==> answer.error == NoServerFound
  {
    match FirstMatch(routes, a)
    case Some(route) => Ok(route.server)
    case None => Err(NoServerFound)
  }

  ghost predicate IsLongestMatch(routes: seq<Route>, a: Address, best: Route) {
    && best in routes && Contains(best.network, a)
    && forall r | r in routes && Contains(r.network, a) :: r.network.length <= best.network.length
  }

  function Networks(routes: seq<Route>): seq<Network> {
    seq(|routes|, i requires 0 <= i < |routes| => routes[i].network)
  }

  /** Route `i` is the first that contains `a`. */
  predicate IsFirst(routes: seq<Route>, a: Address, i: nat) {
    && i < |routes| && Contains(routes[i].network, a)
    && forall k | 0 <= k < i :: !Contains(routes[k].network, a)
  }

  lemma {:induction false} FirstMatchIndex(routes: seq<Route>, a: Address) returns (i: nat)
    ensures FirstMatch(routes, a).Some? ==> IsFirst(routes, a, i) && FirstMatch(routes, a) == Some(routes[i])
    ensures FirstMatch(routes, a).None? ==> forall r | r in routes :: !Contains(r.network, a)
  {
    i := 0;
    if routes != [] && !Contains(routes[0].network, a) {
      var j := FirstMatchIndex(routes[1..], a);
      i := j + 1;
      assert forall k | 1 <= k < |routes| :: routes[k] == routes[1..][k - 1];
    }
  }

  lemma FirstIsUnique(routes: seq<Route>, a: Address, i: nat)
    requires IsFirst(routes, a, i)
    ensures FirstMatch(routes, a) == Some(routes[i])
  {
    var j := FirstMatchIndex(routes, a);
    assert routes[i] in routes;
    assert i == j;
  }

  /** Route `i` comes before route `j`, is strictly shorter and contains it. */
  predicate Inverted(routes: seq<Route>, i: nat, j: nat) {
    && i < j < |routes|
    && routes[i].network.length < routes[j].network.length
    && Covers(routes[i].network, routes[j].network)
  }

  /** Every inverted pair is harmless: the routes before it take all addresses of the longer one. */
  predicate InversionsBlanketed(routes: seq<Route>) {
    forall i, j | 0 <= i < j < |routes| ::
      Inverted(routes, i, j) ==> Blanketed(Networks(routes[..i]), routes[j].network)
  }

  ghost predicate FirstMatchIsLongest(routes: seq<Route>) {
    forall a: Address | FirstMatch(routes, a).Some? :: IsLongestMatch(routes, a, FirstMatch(routes, a).value)
  }

  lemma HitBefore(routes: seq<Route>, i: nat, a: Address)
    requires i <= |routes|
    ensures Hit(Networks(routes[..i]), a) <==> exists k | 0 <= k < i :: Contains(routes[k].network, a)
  {
    var nets := Networks(routes[..i]);
    assert forall k | 0 <= k < i :: nets[k] == routes[k].network && nets[k] in nets;
  }

  lemma LongestAt(routes: seq<Route>, a: Address)
    requires InversionsBlanketed(routes) && FirstMatch(routes, a).Some?
    ensures IsLongestMatch(routes, a, FirstMatch(routes, a).value)
  {
    var i := FirstMatchIndex(routes, a);
    forall r | r in routes && Contains(r.network, a) ensures r.network.length <= routes[i].network.length {
      var j :| 0 <= j < |routes| && routes[j] == r;
      if r.network.length > routes[i].network.length {
        NestedOrDisjoint(routes[i].network, r.network, a);
        assert Inverted(routes, i, j);
        BlanketedIsHit(Networks(routes[..i]), r.network, a);
        HitBefore(routes, i, a);
      }
    }
  }

  lemma ExposedInversionLoses(routes: seq<Route>, i: nat, j: nat) returns (a: Address)
    requires Inverted(routes, i, j) && !Blanketed(Networks(routes[..i]), routes[j].network)
    ensures FirstMatch(routes, a) == Some(routes[i]) && Contains(routes[j].network, a)
    ensures !IsLongestMatch(routes, a, routes[i])
  {
    a := BareIsMissed(Networks(routes[..i]), routes[j].network);
    HitBefore(routes, i, a);
    CoveringContains(routes[i].network, routes[j].network, a);
    FirstIsUnique(routes, a, i);
    assert routes[j] in routes;
  }

  /** The scan returns the longest match for every address exactly when each inverted pair is blanketed. */
  lemma FirstMatchIsLongestIff(routes: seq<Route>)
    ensures FirstMatchIsLongest(routes) <==> InversionsBlanketed(routes)
  {
    if InversionsBlanketed(routes) {
      forall a: Address | FirstMatch(routes, a).Some? ensures IsLongestMatch(routes, a, FirstMatch(routes, a).value) {
        LongestAt(routes, a);
      }
    } else {
      var i, j :| 0 <= i < j < |routes| && Inverted(routes, i, j)
          && !Blanketed(Networks(routes[..i]), routes[j].network);
      var a := ExposedInversionLoses(routes, i, j);
    }
  }

  /** In particular for a list in which no prefix is preceded by a shorter one containing it. */
  lemma OrderedListIsLongest(routes: seq<Route>)
    requires forall i, j | 0 <= i < j < |routes| :: !Inverted(routes, i, j)
    ensures FirstMatchIsLongest(routes)
  {
    FirstMatchIsLongestIff(routes);
  }

  lemma SlashesAreNested()
    ensures 10 < Pow2(8) && 2561 < Pow2(16)
    ensures DropBits(2561, 8) == 10
  {
    assert Pow2(8) == 256;
    Pow2Add(8, 8);
  }

  lemma {:induction false} NothingBlankets(n: Network)
    ensures !Blanketed([], n)
    decreases Width(n.v6) - n.length
  {
    if n.length < Width(n.v6) { NothingBlankets(Half(n, 0)); }
  }

  /** 10.0.0.0/8 listed before 10.1.0.0/16 answers for some address of the latter. */
  lemma BroadPrefixFirst(broad: Route, narrow: Route) returns (a: Address)
    requires broad.network == RawNetwork(false, 8, 10) && narrow.network == RawNetwork(false, 16, 2561)
    ensures MatchIp([broad, narrow], a) == Ok(broad.server)
    ensures Contains(narrow.network, a) && !FirstMatchIsLongest([broad, narrow])
  {
    SlashesAreNested();
    var routes := [broad, narrow];
    assert Networks(routes[..0]) == [];
    NothingBlankets(narrow.network);
    a := ExposedInversionLoses(routes, 0, 1);
  }

  // ── The list built from the file ──────────────────────────────────────────────

  /** The routes of one service: its patterns that parse, all to the same server. */
  function Parsed(patterns: seq<string>, server: string, parse: string -> Option<Network>): seq<Route> {
    if patterns == [] then []
    else
      var n := |patterns| - 1;
      Parsed(patterns[..n], server, parse)
      + match parse(patterns[n]) case Some(network) => [Route(network, server)] case None => []
  }

  function RoutesOf(services: seq<Service>, parse: string -> Option<Network>): seq<Route> {
    if services == [] then []
    else
      var n := |services| - 1;
      RoutesOf(services[..n], parse)
      + match FirstServer(services[n].servers)
        case Some(server) => Parsed(services[n].patterns, server, parse)
        case None => []
  }

  method BuildRoutes(services: seq<Service>, parse: string -> Option<Network>) returns (routes: seq<Route>)
    ensures routes == RoutesOf(services, parse)
  {
    routes := [];
    for i := 0 to |services|
      invariant routes == RoutesOf(services[..i], parse)
    {
      assert services[..i + 1][..i] == services[..i];
      match FirstServer(services[i].servers) {
        case None =>
        case Some(server) =>
          var patterns := services[i].patterns;
          for j := 0 to |patterns|
            invariant routes == RoutesOf(services[..i], parse) + Parsed(patterns[..j], server, parse)
          {
            assert patterns[..j + 1][..j] == patterns[..j];
            match parse(patterns[j]) {
              case Some(network) => routes := routes + [Route(network, server)];
              case None =>
            }
          }
          assert patterns[..|patterns|] == patterns;
      }
    }
    assert services[..|services|] == services;
  }

  ghost predicate Lists(patterns: seq<string>, parse: string -> Option<Network>, a: Address) {
    exists p :: p in patterns && parse(p).Some? && Contains(parse(p).value, a)
  }

  /** The service has a usable server and a pattern containing the address. */
  ghost predicate Serves(service: Service, parse: string -> Option<Network>, a: Address) {
    FirstServer(service.servers).Some? && Lists(service.patterns, parse, a)
  }

  ghost predicate EarliestServes(services: seq<Service>, parse: string -> Option<Network>, a: Address, i: nat) {
    i < |services| && Serves(services[i], parse, a) && forall j | 0 <= j < i :: !Serves(services[j], parse, a)
  }

  ghost predicate NobodyServes(services: seq<Service>, parse: string -> Option<Network>, a: Address) {
    forall j | 0 <= j < |services| :: !Serves(services[j], parse, a)
  }

  lemma EarliestWithLast(services: seq<Service>, parse: string -> Option<Network>, a: Address, i: nat)
    requires services != []
    ensures var n, front := |services| - 1, services[..|services| - 1];
            && (EarliestServes(front, parse, a, i) ==> EarliestServes(services, parse, a, i))
            && (NobodyServes(front, parse, a) && Serves(services[n], parse, a) ==>
                  EarliestServes(services, parse, a, n))
            && (NobodyServes(front, parse, a) && !Serves(services[n], parse, a) ==> NobodyServes(services, parse, a))
  {
    assert forall j | 0 <= j < |services| - 1 :: services[..|services| - 1][j] == services[j];
  }

  lemma {:induction false} FirstMatchInParts(front: seq<Route>, back: seq<Route>, a: Address)
    ensures FirstMatch(front + back, a)
        == if FirstMatch(front, a).Some? then FirstMatch(front, a) else FirstMatch(back, a)
  {
    if front == [] {
      assert front + back == back;
    } else {
      FirstMatchInParts(front[1..], back, a);
      assert (front + back)[1..] == front[1..] + back;
    }
  }

  lemma ListsWithLast(patterns: seq<string>, parse: string -> Option<Network>, a: Address)
    requires patterns != []
    ensures var n := |patterns| - 1;
            Lists(patterns, parse, a) <==>
              || Lists(patterns[..n], parse, a)
              || (parse(patterns[n]).Some? && Contains(parse(patterns[n]).value, a))
  {
    assert patterns == patterns[..|patterns| - 1] + [patterns[|patterns| - 1]];
  }

  lemma {:induction false} ParsedMatch(patterns: seq<string>, server: string, parse: string -> Option<Network>,
      a: Address)
    ensures FirstMatch(Parsed(patterns, server, parse), a).Some? <==> Lists(patterns, parse, a)
    ensures Lists(patterns, parse, a) ==> FirstMatch(Parsed(patterns, server, parse), a).value.server == server
  {
    if patterns != [] {
      var n := |patterns| - 1;
      ParsedMatch(patterns[..n], server, parse, a);
      var last := match parse(patterns[n]) case Some(network) => [Route(network, server)] case None => [];
      FirstMatchInParts(Parsed(patterns[..n], server, parse), last, a);
      ListsWithLast(patterns, parse, a);
    }
  }

  /** What the last service of the file adds to the list, and what that answers. */
  lemma LastServiceMatch(services: seq<Service>, parse: string -> Option<Network>, a: Address)
    requires services != []
    ensures var n, before, all := |services| - 1, FirstMatch(RoutesOf(services[..|services| - 1], parse), a),
        FirstMatch(RoutesOf(services, parse), a);
            && (before.Some? ==> all == before)
            && (before.None? ==> (all.Some? <==> Serves(services[n], parse, a)))
            && (before.None? && all.Some? ==> FirstServer(services[n].servers) == Some(all.value.server))
  {
    var n := |services| - 1;
    var last := match FirstServer(services[n].servers)
      case Some(server) => Parsed(services[n].patterns, server, parse)
      case None => [];
    FirstMatchInParts(RoutesOf(services[..n], parse), last, a);
    if FirstServer(services[n].servers).Some? {
      ParsedMatch(services[n].patterns, FirstServer(services[n].servers).value, parse, a);
    }
  }

  /** The scan of the built list answers with the server of the earliest service listing the address. */
  lemma {:induction false} ScanIsDirectSearch(services: seq<Service>, parse: string -> Option<Network>, a: Address)
    returns (i: nat)
    ensures match MatchIp(RoutesOf(services, parse), a)
            case Ok(server) => EarliestServes(services, parse, a, i) && FirstServer(services[i].servers) == Some(server)
            case Err(_) => NobodyServes(services, parse, a)
  {
    i := 0;
    if services != [] {
      var n := |services| - 1;
      i := ScanIsDirectSearch(services[..n], parse, a);
      LastServiceMatch(services, parse, a);
      EarliestWithLast(services, parse, a, i);
      if FirstMatch(RoutesOf(services[..n], parse), a).None? { i := n; }
    }
  }
}
