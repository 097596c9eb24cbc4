/** The peer side of a hub: which other hubs there are, and how a request that
    could not be served locally is tried at one after the other.

    The walk is the program's: a closure over an index hands out the peers, every
    call is a reverse proxy of its own whose error handler recurses, and the path
    of the request is overwritten on the way out and trimmed on the way back.  It
    is proved against a plain search in the list of peers. */
module Peers {
  import opened Paths
  import opened Statuses

  // ------------------------------------------------------------- enumeration

  datatype Port = Port(name: string, number: int)

  datatype Subset = Subset(addresses: seq<string>, ports: seq<Port>)

  datatype Endpoints = NoEndpoints(text: string) | Endpoints(subsets: seq<Subset>)

  datatype PeerList = GetFailed(text: string) | NoSubset | NoPort | Peers(peers: seq<string>)

  function Decimal(n: int): string
    decreases if n < 0 then 1 - n else n
  {
    if n < 0 then "-" + Decimal(-n)
    else if n < 10 then ["0123456789"[n]]
    else Decimal(n / 10) + ["0123456789"[n % 10]]
  }

  function Address(ip: string, port: int): string {
    ip + ":" + Decimal(port)
  }

  // What the text of a number and of an address says, to a reader of it.

  predicate Digits(s: string) {
    s != "" && forall i :: 0 <= i < |s| ==> '0' <= s[i] <= '9'
  }

  function Value(s: string): int {
    if s == "" then 0 else 10 * Value(s[..|s| - 1]) + (s[|s| - 1] as int - '0' as int)
  }

  /** `text` is the number `n`, with a sign only if it is negative and without
      leading zeros. */
  predicate Reads(text: string, n: int) {
    if text != "" && text[0] == '-' then n < 0 && Digits(text[1..]) && text[1] != '0' && Value(text[1..]) == -n
    else Digits(text) && Value(text) == n && (text[0] == '0' ==> n == 0 && |text| == 1)
  }

  /** `text` is a host, a colon and a port. */
  predicate HostPort(text: string, ip: string, port: int) {
    |ip| < |text| && text[..|ip|] == ip && text[|ip|] == ':' && Reads(text[|ip| + 1..], port)
  }

  lemma {:induction false} OneDigitMore(front: string, d: nat)
    requires Digits(front) && d < 10
    ensures var text := front + ["0123456789"[d]];
      Digits(text) && Value(text) == 10 * Value(front) + d && text[0] == front[0] && |text| > 1
  {
    var text := front + ["0123456789"[d]];
    assert text[..|text| - 1] == front;
    assert text[|text| - 1] == "0123456789"[d];
  }

  lemma {:induction false} DigitsRead(n: nat)
    ensures Digits(Decimal(n)) && Value(Decimal(n)) == n
    ensures Decimal(n)[0] == '0' ==> n == 0 && |Decimal(n)| == 1
  {
    if n >= 10 {
      DigitsRead(n / 10);
      OneDigitMore(Decimal(n / 10), n % 10);
    } else {
      assert Decimal(n)[..0] == "";
    }
  }

  /** What is printed for a number reads as that number, and as no other. */
  lemma {:induction false} DecimalReads(n: int, m: int)
    ensures Reads(Decimal(n), m) <==> m == n
    ensures ':' !in Decimal(n)
  {
    DigitsRead(if n < 0 then -n else n);
    if n < 0 { assert Decimal(n)[1..] == Decimal(-n); }
  }

  /** An address is its host and its port. */
  lemma {:induction false} AddressReads(ip: string, port: int)
    ensures HostPort(Address(ip, port), ip, port)
  {
    var text := Address(ip, port);
    DecimalReads(port, port);
    assert text[..|ip|] == ip && text[|ip| + 1..] == Decimal(port);
  }

  /** The number of the first port named `peer`, or else `default`. */
  function NamedPort(ports: seq<Port>, default: int): int {
    if ports == [] then default
    else if ports[0].name == "peer" then ports[0].number
    else NamedPort(ports[1..], default)
  }

  /** The addresses other than `self`, with the port. */
  function Others(addresses: seq<string>, self: string, port: int): seq<string> {
    if addresses == [] then []
    else
      var last := |addresses| - 1;
      Others(addresses[..last], self, port)
      + if addresses[last] == self then [] else [Address(addresses[last], port)]
  }

  function PeersOf(endpoints: Endpoints, self: string): PeerList {
    match endpoints
    case NoEndpoints(text) => GetFailed(text)
    case Endpoints(subsets) =>
      if subsets == [] then NoSubset
      else if subsets[0].ports == [] then NoPort
      else
        var subset := subsets[0];
        Peers(Others(subset.addresses, self, NamedPort(subset.ports, subset.ports[0].number)))
  }

  ghost predicate FirstNamedPeer(ports: seq<Port>, i: nat) {
    i < |ports| && ports[i].name == "peer" && forall j :: 0 <= j < i ==> ports[j].name != "peer"
  }

  /** The port that is used is that of the first entry named `peer`, wherever it
      stands, and the default only where no entry has that name. */
  lemma {:induction false} NamedPortFirst(ports: seq<Port>, default: int)
    ensures forall i: nat :: FirstNamedPeer(ports, i) ==> NamedPort(ports, default) == ports[i].number
    ensures (forall i :: 0 <= i < |ports| ==> ports[i].name != "peer") ==> NamedPort(ports, default) == default
    decreases |ports|
  {
    if ports != [] && ports[0].name != "peer" {
      NamedPortFirst(ports[1..], default);
      forall i: nat | FirstNamedPeer(ports, i)
        ensures NamedPort(ports, default) == ports[i].number
      {
        assert i > 0;
        assert ports[1..][i - 1] == ports[i];
        assert FirstNamedPeer(ports[1..], i - 1);
      }
    }
  }

  /** `peers` lists the addresses at the positions `at`, in that order, and these
      are exactly the positions of addresses other than `self`. */
  ghost predicate Enumerates(peers: seq<string>, addresses: seq<string>, self: string, port: int, at: seq<nat>) {
    && |at| == |peers|
    && (forall i :: 0 <= i < |at| ==> at[i] < |addresses| && peers[i] == Address(addresses[at[i]], port))
    && (forall i, j :: 0 <= i < j < |at| ==> at[i] < at[j])
    && (forall k :: 0 <= k < |addresses| ==> (addresses[k] != self <==> k in at))
  }

  /** One more address, at the end. */
  lemma {:induction false} EnumerateLast(
      peers: seq<string>, addresses: seq<string>, self: string, port: int, at: seq<nat>)
    requires addresses != [] && Enumerates(peers, addresses[..|addresses| - 1], self, port, at)
    ensures var last := |addresses| - 1;
      if addresses[last] == self then Enumerates(peers + [], addresses, self, port, at + [])
      else Enumerates(peers + [Address(addresses[last], port)], addresses, self, port, at + [last])
  {
    var last := |addresses| - 1;
    var more := at + if addresses[last] == self then [] else [last];
    assert forall i :: 0 <= i < |at| ==> more[i] == at[i] && at[i] < last;
    forall k | 0 <= k < |addresses|
      ensures addresses[k] != self <==> k in more
    {
      if k < last {
        assert addresses[..last][k] == addresses[k];
      } else {
        assert last !in at;
        if addresses[last] != self { assert more[|at|] == last; }
      }
    }
  }

  lemma {:induction false} OthersEnumerate(addresses: seq<string>, self: string, port: int) returns (at: seq<nat>)
    ensures Enumerates(Others(addresses, self, port), addresses, self, port, at)
    decreases |addresses|
  {
    if addresses == [] {
      at := [];
    } else {
      var last := |addresses| - 1;
      var less := OthersEnumerate(addresses[..last], self, port);
      var peers := Others(addresses[..last], self, port);
      EnumerateLast(peers, addresses, self, port, less);
      at := less + if addresses[last] == self then [] else [last];
    }
  }

  lemma {:induction false} HostEnds(a: string, d: string, b: string, e: string)
    requires a + ":" + d == b + ":" + e && ':' !in d
    ensures |b| <= |a|
  {
    var text := a + ":" + d;
    assert text == b + ":" + e && text[|b|] == ':';
    assert forall k :: |a| < k < |text| ==> text[k] == d[k - |a| - 1] && d[k - |a| - 1] in d;
  }

  /** The host ends at the last colon, so no two addresses are printed alike. */
  lemma {:induction false} AddressInjective(a: string, p: int, b: string, q: int)
    ensures Address(a, p) == Address(b, q) <==> a == b && p == q
  {
    DecimalReads(p, q);
    DecimalReads(q, q);
    var d, e := Decimal(p), Decimal(q);
    if a + ":" + d == b + ":" + e {
      HostEnds(a, d, b, e);
      HostEnds(b, e, a, d);
      assert (a + ":" + d)[..|a|] == a && (b + ":" + e)[..|a|] == b;
      assert (a + ":" + d)[|a| + 1..] == d && (b + ":" + e)[|a| + 1..] == e;
    }
  }

  lemma {:induction false} PeersMembers(
      peers: seq<string>, addresses: seq<string>, self: string, port: int, at: seq<nat>, ip: string)
    requires Enumerates(peers, addresses, self, port, at)
    ensures Address(ip, port) in peers <==> ip != self && ip in addresses
  {
    if Address(ip, port) in peers {
      var i :| 0 <= i < |peers| && peers[i] == Address(ip, port);
      assert at[i] in at;
      AddressInjective(addresses[at[i]], port, ip, port);
    }
    if ip != self && ip in addresses {
      var k :| 0 <= k < |addresses| && addresses[k] == ip;
      assert k in at;
      var i :| 0 <= i < |at| && at[i] == k;
      assert peers[i] == Address(ip, port);
    }
  }

  lemma {:induction false} PeersDistinct(
      peers: seq<string>, addresses: seq<string>, self: string, port: int, at: seq<nat>)
    requires Enumerates(peers, addresses, self, port, at)
    requires forall k, l :: 0 <= k < l < |addresses| ==> addresses[k] != addresses[l]
    ensures forall i, j :: 0 <= i < j < |peers| ==> peers[i] != peers[j]
  {
    forall i, j | 0 <= i < j < |peers|
      ensures peers[i] != peers[j]
    {
      assert at[i] < at[j];
      AddressInjective(addresses[at[i]], port, addresses[at[j]], port);
    }
  }

  /** The list leaves out this hub and no other, keeps the order of the endpoints,
      prints every address with the port, never holds the empty string that the walk
      takes for the end of the list, and repeats no address unless the endpoints do. */
  lemma {:induction false} PeersExact(addresses: seq<string>, self: string, port: int) returns (at: seq<nat>)
    ensures var peers := Others(addresses, self, port);
      && Enumerates(peers, addresses, self, port, at)
      && (forall i :: 0 <= i < |peers| ==> HostPort(peers[i], addresses[at[i]], port))
      && "" !in peers
      && (forall ip :: Address(ip, port) in peers <==> ip != self && ip in addresses)
      && ((forall k, l :: 0 <= k < l < |addresses| ==> addresses[k] != addresses[l]) ==>
            forall i, j :: 0 <= i < j < |peers| ==> peers[i] != peers[j])
  {
    var peers := Others(addresses, self, port);
    at := OthersEnumerate(addresses, self, port);
    forall i | 0 <= i < |peers|
      ensures peers[i] != "" && HostPort(peers[i], addresses[at[i]], port)
    {
      AddressReads(addresses[at[i]], port);
    }
    forall ip
      ensures Address(ip, port) in peers <==> ip != self && ip in addresses
    {
      PeersMembers(peers, addresses, self, port, at, ip);
    }
    if forall k, l :: 0 <= k < l < |addresses| ==> addresses[k] != addresses[l] {
      PeersDistinct(peers, addresses, self, port, at);
    }
  }

  ghost predicate PortToUse(ports: seq<Port>, port: int) {
    || (exists i: nat :: FirstNamedPeer(ports, i) && port == ports[i].number)
    || ((forall i :: 0 <= i < |ports| ==> ports[i].name != "peer") && ports != [] && port == ports[0].number)
  }

  /** `peers` are the addresses of the first subset other than `self`, in order,
      each printed with the port to use. */
  ghost predicate FirstSubset(subset: Subset, self: string, peers: seq<string>) {
    exists port, at: seq<nat> ::
      && PortToUse(subset.ports, port)
      && |at| == |peers|
      && (forall i :: 0 <= i < |at| ==>
           at[i] < |subset.addresses| && HostPort(peers[i], subset.addresses[at[i]], port))
      && (forall i, j :: 0 <= i < j < |at| ==> at[i] < at[j])
      && (forall k :: 0 <= k < |subset.addresses| ==> (subset.addresses[k] != self <==> k in at))
  }

  /** Which answer belongs to which endpoints. */
  ghost predicate ListedFrom(endpoints: Endpoints, self: string, r: PeerList) {
    match r
    case GetFailed(text) => endpoints == NoEndpoints(text)
    case NoSubset => endpoints.Endpoints? && |endpoints.subsets| == 0
    case NoPort => endpoints.Endpoints? && |endpoints.subsets| > 0 && |endpoints.subsets[0].ports| == 0
    case Peers(peers) =>
      endpoints.Endpoints? && |endpoints.subsets| > 0 && FirstSubset(endpoints.subsets[0], self, peers)
  }

  lemma {:induction false} FirstNamed(ports: seq<Port>) returns (i: nat)
    requires exists k :: 0 <= k < |ports| && ports[k].name == "peer"
    ensures FirstNamedPeer(ports, i)
  {
    i := 0;
    while ports[i].name != "peer"
      invariant i < |ports| && forall j :: 0 <= j < i ==> ports[j].name != "peer"
      decreases |ports| - i
    {
      i := i + 1;
    }
  }

  lemma {:induction false} PortUsed(ports: seq<Port>)
    requires ports != []
    ensures PortToUse(ports, NamedPort(ports, ports[0].number))
  {
    NamedPortFirst(ports, ports[0].number);
    if k :| 0 <= k < |ports| && ports[k].name == "peer" {
      var i := FirstNamed(ports);
    }
  }

  lemma {:induction false} PeersListed(endpoints: Endpoints, self: string)
    ensures ListedFrom(endpoints, self, PeersOf(endpoints, self))
  {
    if PeersOf(endpoints, self).Peers? {
      var subset := endpoints.subsets[0];
      PortUsed(subset.ports);
      var at := PeersExact(subset.addresses, self, NamedPort(subset.ports, subset.ports[0].number));
    }
  }

  /** The list of the endpoints' first subset, or the error that fits. */
  method ListPeers(endpoints: Endpoints, self: string) returns (r: PeerList)
    ensures r == PeersOf(endpoints, self) && ListedFrom(endpoints, self, r)
  {
    if endpoints.NoEndpoints? {
      return GetFailed(endpoints.text);
    }
    if |endpoints.subsets| == 0 {
      return NoSubset;
    }
    var subset := endpoints.subsets[0];
    if |subset.ports| == 0 {
      return NoPort;
    }

    var port := subset.ports[0].number;
    var i := 0;
    while i < |subset.ports|
      invariant i <= |subset.ports|
      invariant port == subset.ports[0].number
      invariant NamedPort(subset.ports, port) == NamedPort(subset.ports[i..], port)
    {
      if subset.ports[i].name == "peer" {
        port := subset.ports[i].number;
        break;
      }
      i := i + 1;
    }
    ghost var chosen := NamedPort(subset.ports, subset.ports[0].number);
    assert port == chosen;

    var peers: seq<string> := [];
    for k := 0 to |subset.addresses|
      invariant peers == Others(subset.addresses[..k], self, port)
    {
      var ip := subset.addresses[k];
      assert subset.addresses[..k + 1][..k] == subset.addresses[..k];
      if ip == self {
        continue;
      }
      peers := peers + [Address(ip, port)];
    }
    assert subset.addresses[..|subset.addresses|] == subset.addresses;
    PeersListed(endpoints, self);
    return Peers(peers);
  }

  /** A peer list never holds the sentinel of the walk. */
  lemma {:induction false} NoEmptyPeer(endpoints: Endpoints, self: string)
    ensures PeersOf(endpoints, self).Peers? ==> "" !in PeersOf(endpoints, self).peers
  {
    if PeersOf(endpoints, self).Peers? {
      var subset := endpoints.subsets[0];
      var at := PeersExact(subset.addresses, self, NamedPort(subset.ports, subset.ports[0].number));
    }
  }

  // --------------------------------------------------------------------- walk

  datatype Reply = Reply(status: int, body: string)

  datatype MaybeError = NoError | Error(text: string)

  const BAD_GATEWAY_REPLY := Reply(BAD_GATEWAY, "")

  function UrlFailed(text: string): Reply {
    Reply(INTERNAL_ERROR, "failed to parse URL: " + text)
  }

  function CertFailed(text: string): Reply {
    Reply(INTERNAL_ERROR, "failed to load cert: " + text)
  }

  /** What comes back from a round trip. */
  datatype Transport = Answered(status: int, body: string) | Broken(text: string)

  datatype Call = Call(peer: string, path: string)

  /** Everything outside the program that a walk depends on: at each hop, whether
      the URL of the peer parses, whether the certificate loads, and what comes back
      from the call. */
  datatype World = World(
    parse: (nat, string) -> MaybeError,
    cert: nat -> MaybeError,
    answer: (nat, Call) -> Transport)

  /** What happens at one hop. */
  datatype Hop = BadURL(text: string) | BadCert(text: string) | Called(back: Transport) {
    /** A 502 answer moves on to the next peer.  So would a transport error without
        a text; any other transport error does not. */
    predicate Advances() {
      && Called?
      && match back
         case Answered(status, _) => status == BAD_GATEWAY
         case Broken(text) => text == ""
    }

    /** What the client is told when the walk ends here. */
    function Verdict(): Reply {
      match this
      case BadURL(text) => UrlFailed(text)
      case BadCert(text) => CertFailed(text)
      case Called(Answered(status, body)) => Reply(status, body)
      case Called(Broken(_)) => BAD_GATEWAY_REPLY
    }
  }

  function UrlText(peer: string, key: Key): string {
    "https://" + peer + RoutePrefix(key)
  }

  /** The URL names the peer and carries the key as the path of the call does, and
      no two peers, which hold no slash, and keys share a URL. */
  lemma {:induction false} UrlNames(p: string, a: Key, q: string, b: Key, sub: string)
    requires '/' !in p && '/' !in q && ValidKey(a) && ValidKey(b)
    ensures UrlText(p, a) == "https://" + p + "/proxy/" + a.ns + "/" + a.name
    ensures UrlText(p, a) + Norm(sub) == "https://" + p + PeerPath(a, sub)
    ensures UrlText(p, a) == UrlText(q, b) <==> p == q && a == b
  {
    JoinThenTrim(a, sub);
    var x, y := RoutePrefix(a)[1..], RoutePrefix(b)[1..];
    assert UrlText(p, a) == "https://" + (p + "/" + x) && UrlText(q, b) == "https://" + (q + "/" + y);
    assert UrlText(p, a) == "https://" + p + "/proxy/" + a.ns + "/" + a.name;
    assert UrlText(p, a) + Norm(sub) == "https://" + p + PeerPath(a, sub);
    if UrlText(p, a) == UrlText(q, b) {
      DropPrefix("https://", p + "/" + x);
      DropPrefix("https://", q + "/" + y);
      SplitAtSlash(p, x);
      SplitAtSlash(q, y);
      assert RoutePrefix(a) == "/" + x && RoutePrefix(b) == "/" + y;
      RoutePrefixInjective(a, b);
    }
  }

  /** Hop number `i` of a walk for `key`, at `peer`, called at `path`. */
  function HopAt(world: World, i: nat, peer: string, key: Key, path: string): Hop {
    match world.parse(i, UrlText(peer, key))
    case Error(text) => BadURL(text)
    case NoError =>
      match world.cert(i)
      case Error(text) => BadCert(text)
      case NoError => Called(world.answer(i, Call(peer, path)))
  }

  /** The walk as a search in a list: from `from` on, the first position that ends
      it, because the list is at its end there or its hop does not advance. */
  ghost predicate StopsAt(world: World, peers: seq<string>, from: nat, key: Key, path: string, n: nat) {
    && from <= n <= |peers|
    && (forall i :: from <= i < n ==> peers[i] != "" && HopAt(world, i, peers[i], key, path).Advances())
    && (n < |peers| ==> peers[n] == "" || !HopAt(world, n, peers[n], key, path).Advances())
  }

  function Stop(world: World, peers: seq<string>, from: nat, key: Key, path: string): (n: nat)
    requires from <= |peers|
    ensures from <= n <= |peers|
    decreases |peers| - from
  {
    if from < |peers| && peers[from] != "" && HopAt(world, from, peers[from], key, path).Advances()
    then Stop(world, peers, from + 1, key, path)
    else from
  }

  /** There is exactly one such position. */
  lemma {:induction false} StopIsFirst(world: World, peers: seq<string>, from: nat, key: Key, path: string, n: nat)
    requires from <= |peers|
    ensures StopsAt(world, peers, from, key, path, n) <==> n == Stop(world, peers, from, key, path)
    decreases |peers| - from
  {
    if from < |peers| && peers[from] != "" && HopAt(world, from, peers[from], key, path).Advances() {
      StopIsFirst(world, peers, from + 1, key, path, n);
    }
  }

  /** The answer of a walk that stops at `n`. */
  function ReplyAt(world: World, peers: seq<string>, key: Key, path: string, n: nat): Reply {
    if n >= |peers| || peers[n] == "" then BAD_GATEWAY_REPLY
    else HopAt(world, n, peers[n], key, path).Verdict()
  }

  /** The calls that such a walk sends: one to each peer it passes, and one to the
      peer it stops at unless it stops there before calling. */
  function CallsUpTo(world: World, peers: seq<string>, from: nat, key: Key, path: string, n: nat): seq<Call>
    requires from <= n <= |peers|
  {
    seq(n - from, i requires 0 <= i < n - from => Call(peers[from + i], path))
    + if n < |peers| && peers[n] != "" && HopAt(world, n, peers[n], key, path).Called?
      then [Call(peers[n], path)] else []
  }

  datatype Walk = Walk(reply: Reply, calls: seq<Call>)

  /** A walk from hop `from` on, as a search. */
  function WalkFrom(world: World, peers: seq<string>, from: nat, key: Key, path: string): Walk
    requires from <= |peers|
  {
    var n := Stop(world, peers, from, key, path);
    Walk(ReplyAt(world, peers, key, path, n), CallsUpTo(world, peers, from, key, path, n))
  }

  /** What the search gives where it stops at once. */
  lemma {:induction false} WalkStops(world: World, peers: seq<string>, from: nat, key: Key, path: string)
    requires from <= |peers|
    ensures from == |peers| || peers[from] == "" ==>
      WalkFrom(world, peers, from, key, path) == Walk(BAD_GATEWAY_REPLY, [])
    ensures from < |peers| && peers[from] != "" ==>
      var hop := HopAt(world, from, peers[from], key, path);
      !hop.Advances() ==>
        WalkFrom(world, peers, from, key, path)
        == Walk(hop.Verdict(), if hop.Called? then [Call(peers[from], path)] else [])
  {
  }

  /** Passing a peer adds one call in front. */
  lemma {:induction false} WalkPasses(world: World, peers: seq<string>, from: nat, key: Key, path: string)
    requires from < |peers| && peers[from] != "" && HopAt(world, from, peers[from], key, path).Advances()
    ensures var rest := WalkFrom(world, peers, from + 1, key, path);
      WalkFrom(world, peers, from, key, path) == Walk(rest.reply, [Call(peers[from], path)] + rest.calls)
  {
    var n := Stop(world, peers, from, key, path);
    assert seq(n - from, i requires 0 <= i < n - from => Call(peers[from + i], path))
        == [Call(peers[from], path)]
           + seq(n - from - 1, i requires 0 <= i < n - from - 1 => Call(peers[from + 1 + i], path));
  }

  /** Who answers, if the hops in front of `n` advance: at the end of the list it
      is 502; a peer that answers anything else decides; a transport error makes it
      502; and a URL or a certificate that fails makes it 500.  What is behind `n`
      does not matter. */
  lemma {:induction false} FirstAnswerWins(world: World, peers: seq<string>, key: Key, path: string, n: nat)
    requires n <= |peers| && "" !in peers
    requires forall i :: 0 <= i < n ==> HopAt(world, i, peers[i], key, path).Advances()
    ensures var walk := WalkFrom(world, peers, 0, key, path);
      && (n == |peers| ==> walk.reply == Reply(502, "") && |walk.calls| == n)
      && (n < |peers| ==>
            var url := "https://" + peers[n] + "/proxy/" + key.ns + "/" + key.name;
            match (world.parse(n, url), world.cert(n), world.answer(n, Call(peers[n], path)))
            case (Error(text), _, _) =>
              walk.reply == Reply(500, "failed to parse URL: " + text) && |walk.calls| == n
            case (NoError, Error(text), _) =>
              walk.reply == Reply(500, "failed to load cert: " + text) && |walk.calls| == n
            case (NoError, NoError, Answered(status, body)) =>
              status != 502 ==> walk.reply == Reply(status, body) && |walk.calls| == n + 1
            case (NoError, NoError, Broken(text)) =>
              text != "" ==> walk.reply == Reply(502, "") && |walk.calls| == n + 1)
  {
    if n < |peers| {
      assert UrlText(peers[n], key) == "https://" + peers[n] + "/proxy/" + key.ns + "/" + key.name;
    }
    if n == |peers| || !HopAt(world, n, peers[n], key, path).Advances() {
      assert StopsAt(world, peers, 0, key, path, n);
      StopIsFirst(world, peers, 0, key, path, n);
    }
  }

  /** A walk calls each peer at most once, in list order, all at one path. */
  lemma {:induction false} CallsInOrder(world: World, peers: seq<string>, key: Key, path: string)
    ensures var calls := WalkFrom(world, peers, 0, key, path).calls;
      |calls| <= |peers| && forall i :: 0 <= i < |calls| ==> calls[i] == Call(peers[i], path)
  {
  }

  class Request {
    var path: string

    constructor (path: string)
      ensures this.path == path
    {
      this.path := path;
    }
  }

  class ResponseWriter {
    var replies: seq<Reply>

    method Write(reply: Reply)
      modifies this
      ensures replies == old(replies) + [reply]
    {
      replies := replies + [reply];
    }
  }

  /** The closure `nextPeer` and the index that it captures. */
  class Cursor {
    const peers: seq<string>
    var idx: int

    constructor (peers: seq<string>)
      ensures this.peers == peers && idx == -1
    {
      this.peers, idx := peers, -1;
    }

    method Next() returns (peer: string)
      requires -1 <= idx
      modifies this
      ensures idx == old(idx) + 1
      ensures peer == if idx < |peers| then peers[idx] else ""
    {
      idx := idx + 1;
      if idx >= |peers| {
        return "";
      }
      return peers[idx];
    }
  }

  /** The connection to the other hubs; `sent` are the calls made on it. */
  class Wire {
    const world: World
    var sent: seq<Call>

    method RoundTrip(hop: nat, call: Call) returns (back: Transport)
      modifies this
      ensures back == world.answer(hop, call)
      ensures sent == old(sent) + [call]
    {
      sent := sent + [call];
      back := world.answer(hop, call);
    }
  }

  lemma {:induction false} Assoc<T>(a: seq<T>, x: T, b: seq<T>)
    ensures a + [x] + b == a + ([x] + b)
  {
  }

  /** The recursive walk.  Started before hop number `next.idx + 1`, it writes
      exactly one reply, the one that the search finds, and sends exactly the calls
      up to there, every one of them at the same path. */
  method TryNextPeer(w: ResponseWriter, r: Request, key: Key, next: Cursor, wire: Wire)
    requires ValidKey(key) && -1 <= next.idx < |next.peers|
    modifies w, next, wire
    ensures var walk := WalkFrom(wire.world, next.peers, old(next.idx) + 1, key, PeerPath(key, r.path));
      w.replies == old(w.replies) + [walk.reply] && wire.sent == old(wire.sent) + walk.calls
    decreases |next.peers| - next.idx, 0
  {
    WalkStops(wire.world, next.peers, next.idx + 1, key, PeerPath(key, r.path));
    var peer := next.Next();
    if peer == "" {
      w.Write(BAD_GATEWAY_REPLY);
      return;
    }

    var parsed := wire.world.parse(next.idx, UrlText(peer, key));
    if parsed.Error? {
      w.Write(UrlFailed(parsed.text));
      return;
    }

    var loaded := wire.world.cert(next.idx);
    if loaded.Error? {
      w.Write(CertFailed(loaded.text));
      return;
    }

    ProxyTo(w, r, peer, key, next, wire);
  }

  /** One reverse proxy.  It works on a copy of the request, takes a 502 answer for
      an error without a text, and hands the copy to its error handler. */
  method ProxyTo(w: ResponseWriter, r: Request, peer: string, key: Key, next: Cursor, wire: Wire)
    requires ValidKey(key) && 0 <= next.idx < |next.peers| && peer == next.peers[next.idx] && peer != ""
    requires HopAt(wire.world, next.idx, peer, key, PeerPath(key, r.path)).Called?
    modifies w, next, wire
    ensures var walk := WalkFrom(wire.world, next.peers, old(next.idx), key, PeerPath(key, r.path));
      w.replies == old(w.replies) + [walk.reply] && wire.sent == old(wire.sent) + walk.calls
    decreases |next.peers| - next.idx, 2
  {
    var out := new Request(r.path);
    out.path := SingleJoin(RoutePrefix(key), out.path);
    WalkStops(wire.world, next.peers, next.idx, key, out.path);
    var call := Call(peer, out.path);
    var back := wire.RoundTrip(next.idx, call);
    var e := match back
      case Answered(status, _) => if status == BAD_GATEWAY then Error("") else NoError
      case Broken(text) => Error(text);
    if e.NoError? {
      w.Write(Reply(back.status, back.body));
      return;
    }
    if e.text == "" {
      WalkPasses(wire.world, next.peers, next.idx, key, out.path);
      Assoc(old(wire.sent), call, WalkFrom(wire.world, next.peers, next.idx + 1, key, out.path).calls);
    }
    HandlePeerError(w, out, e.text, key, next, wire, r.path);
  }

  /** The error handler of the proxy for one peer, called with the request that
      was sent to it. */
  method HandlePeerError(
      w: ResponseWriter, r: Request, e: string, key: Key, next: Cursor, wire: Wire, ghost before: string)
    requires ValidKey(key) && 0 <= next.idx < |next.peers| && r.path == PeerPath(key, before)
    modifies w, r, next, wire
    ensures var rest := WalkFrom(wire.world, next.peers, old(next.idx) + 1, key, old(r.path));
      if e != "" then w.replies == old(w.replies) + [BAD_GATEWAY_REPLY] && wire.sent == old(wire.sent)
      else w.replies == old(w.replies) + [rest.reply] && wire.sent == old(wire.sent) + rest.calls
    decreases |next.peers| - next.idx, 1
  {
    if e != "" {
      w.Write(BAD_GATEWAY_REPLY);
      return;
    }
    JoinThenTrim(key, before);
    r.path := TrimPrefix(r.path, RoutePrefix(key));
    JoinThenTrim(key, r.path);
    TryNextPeer(w, r, key, next, wire);
  }
}
