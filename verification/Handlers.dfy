/** The two handlers of a hub that use its sessions: the one that agents connect
    to, and the one that proxies a request to a cluster.  The proxy handler serves
    both the entry hub, which has a peer manager, and a hub called by a peer, which
    has none. */
module Handlers {
  import opened Paths
  import opened Dialing
  import opened SessionLists
  import opened SessionManager
  import opened Peers
  import opened Statuses

  /** The answer of the API server for a cluster. */
  datatype Lookup = Got(token: string) | NotFound | GetError(text: string)

  function LookupFailed(lookup: Lookup): Reply
    requires !lookup.Got?
  {
    match lookup
    case NotFound => Reply(NOT_FOUND, "Not Found")
    case GetError(text) => Reply(INTERNAL_ERROR, "failed to get cluster: " + text)
  }

  // ------------------------------------------------------------------ connect

  /** An agent connects.  Exactly when the cluster exists, the token is its stored
      one and the channel comes up, a new session is registered under exactly the
      key of the request, and nothing is answered; in every other case the handler
      answers once and the sessions stay as they are. */
  method ServeConnect(
      w: ResponseWriter, manager: Manager, key: Key, lookup: Lookup, token: string,
      upgrade: MaybeError, channel: MaybeError) returns (registered: bool)
    requires manager.Valid()
    modifies w, manager, manager.owner.Keys
    ensures manager.Valid()
    ensures registered <==> lookup == Got(token) && upgrade.NoError? && channel.NoError?
    ensures registered ==>
      && w.replies == old(w.replies)
      && exists sess: Session :: fresh(sess) && !sess.down &&
           manager.lists == Added(old(manager.lists), KeyString(key), sess)
    ensures !registered ==>
      && manager.lists == old(manager.lists)
      && |w.replies| == |old(w.replies)| + 1 && old(w.replies) <= w.replies
      && w.replies[|old(w.replies)|]
         == (if lookup.NotFound? then Reply(404, "Not Found")
             else if lookup.GetError? then Reply(500, "failed to get cluster: " + lookup.text)
             else if lookup.token != token then Reply(401, "Unauthorized")
             else if upgrade.Error? then Reply(500, "failed to upgrade to WebSocket: " + upgrade.text)
             else Reply(500, "failed to multiplex channel: " + channel.text))
  {
    if !lookup.Got? {
      w.Write(LookupFailed(lookup));
      return false;
    }
    if token != lookup.token {
      w.Write(Reply(UNAUTHORIZED, "Unauthorized"));
      return false;
    }
    if upgrade.Error? {
      w.Write(Reply(INTERNAL_ERROR, "failed to upgrade to WebSocket: " + upgrade.text));
      return false;
    }
    if channel.Error? {
      w.Write(Reply(INTERNAL_ERROR, "failed to multiplex channel: " + channel.text));
      return false;
    }
    var sess := new Session();
    manager.AddClusterSession(key, sess);
    return true;
  }

  // -------------------------------------------------------------------- proxy

  datatype PeerManager = NoPeerManager | PeerManager(endpoints: Endpoints, self: string)

  function ListFailed(list: PeerList): Reply
    requires !list.Peers?
  {
    var text := match list
      case GetFailed(text) => "get endpoints: " + text
      case NoSubset => "no subset found"
      case NoPort => "no port found";
    Reply(INTERNAL_ERROR, "failed to list peers: " + text)
  }

  /** What the error handler of the local proxy does. */
  function Fallback(pm: PeerManager, world: World, key: Key, sub: string): Walk {
    match pm
    case NoPeerManager => Walk(BAD_GATEWAY_REPLY, [])
    case PeerManager(endpoints, self) =>
      match PeersOf(endpoints, self)
      case Peers(peers) => WalkFrom(world, peers, 0, key, PeerPath(key, sub))
      case list => Walk(ListFailed(list), [])
  }

  /** What the error handler comes to, in terms of the listed peers: it answers as
      the first peer does whose hop does not advance, and calls the peers up to
      there, the first one first, each of them at the request's own path behind the
      prefix of the cluster. */
  ghost predicate Searches(pm: PeerManager, world: World, key: Key, sub: string, walk: Walk) {
    match pm
    case NoPeerManager => walk.reply.status == 502 && walk.calls == []
    case PeerManager(endpoints, self) =>
      match PeersOf(endpoints, self)
      case Peers(peers) =>
        var path := "/proxy/" + key.ns + "/" + key.name + Norm(sub);
        && (exists n: nat ::
             && StopsAt(world, peers, 0, key, path, n) && walk.reply == ReplyAt(world, peers, key, path, n)
             && |walk.calls| == n + if n < |peers| && HopAt(world, n, peers[n], key, path).Called? then 1 else 0)
        && |walk.calls| <= |peers| && forall i :: 0 <= i < |walk.calls| ==> walk.calls[i] == Call(peers[i], path)
      case GetFailed(text) => walk == Walk(Reply(500, "failed to list peers: get endpoints: " + text), [])
      case _ => walk.reply.status == 500 && walk.calls == []
  }

  lemma {:induction false} FallbackSearches(pm: PeerManager, world: World, key: Key, sub: string)
    requires ValidKey(key)
    ensures Searches(pm, world, key, sub, Fallback(pm, world, key, sub))
  {
    if pm.PeerManager? && PeersOf(pm.endpoints, pm.self).GetFailed? {
      var text := PeersOf(pm.endpoints, pm.self).text;
      assert "failed to list peers: " + ("get endpoints: " + text) == "failed to list peers: get endpoints: " + text;
    }
    if pm.PeerManager? && PeersOf(pm.endpoints, pm.self).Peers? {
      var peers, path := PeersOf(pm.endpoints, pm.self).peers, PeerPath(key, sub);
      PeerPathText(key, sub);
      NoEmptyPeer(pm.endpoints, pm.self);
      CallsInOrder(world, peers, key, path);
      StopIsFirst(world, peers, 0, key, path, Stop(world, peers, 0, key, path));
    }
  }

  function AfterDialling(
      dialed: bool, trip: Transport, pm: PeerManager, world: World, key: Key, sub: string): Walk
  {
    if dialed && trip.Answered? then Walk(Reply(trip.status, trip.body), [])
    else Fallback(pm, world, key, sub)
  }

  /** The handler as a whole, given whether the dial call returned a connection. */
  function Serving(
      lookup: Lookup, dialed: bool, trip: Transport, pm: PeerManager, world: World, key: Key, sub: string): Walk
  {
    if !lookup.Got? then Walk(LookupFailed(lookup), [])
    else AfterDialling(dialed, trip, pm, world, key, sub)
  }

  /** A cluster that is not found, or cannot be looked up, is answered at once; what
      an agent answered is passed on, status and body, and calls no peer; and only
      without such an answer do the peers come in. */
  ghost predicate ServedAs(
      lookup: Lookup, dialed: bool, trip: Transport, pm: PeerManager, world: World, key: Key, sub: string, walk: Walk)
  {
    if lookup.NotFound? then walk == Walk(Reply(404, "Not Found"), [])
    else if lookup.GetError? then walk == Walk(Reply(500, "failed to get cluster: " + lookup.text), [])
    else if dialed && trip.Answered? then walk == Walk(Reply(trip.status, trip.body), [])
    else Searches(pm, world, key, sub, walk)
  }

  lemma {:induction false} ServesAs(
      lookup: Lookup, dialed: bool, trip: Transport, pm: PeerManager, world: World, key: Key, sub: string)
    requires ValidKey(key)
    ensures var walk := Serving(lookup, dialed, trip, pm, world, key, sub);
      ServedAs(lookup, dialed, trip, pm, world, key, sub, walk)
  {
    FallbackSearches(pm, world, key, sub);
  }

  /** The director: it joins the paths of its target and of the request, and then
      overwrites the result. */
  method Direct(r: Request, sub: string) returns (out: Request)
    ensures fresh(out) && out.path == sub
  {
    out := new Request(r.path);
    out.path := SingleJoin("", out.path);
    out.path := sub;
  }

  /** The proxy handler.  It answers exactly once, whatever happens; without a peer
      manager it calls no other hub; and it dials one cluster, its own, and only
      after the cluster was found. */
  method ServeProxy(
      w: ResponseWriter, r: Request, lookup: Lookup, manager: Manager, pm: PeerManager,
      key: Key, sub: string, luck: Luck, trip: Transport, wire: Wire) returns (conn: Conn, log: Log)
    requires manager.Valid() && ValidKey(key)
    modifies w, wire, manager, manager.journal, manager.owner.Keys
    modifies set s: Session | s in Listed(manager.lists, KeyString(key))
    ensures manager.Valid()
    ensures lookup.Got? ==> DialStep(old(manager.lists), KeyString(key), log, conn, manager.lists)
    ensures !lookup.Got? ==> manager.lists == old(manager.lists)
    ensures var walk := Serving(lookup, conn.Dialed?, trip, pm, wire.world, key, sub);
      && w.replies == old(w.replies) + [walk.reply] && wire.sent == old(wire.sent) + walk.calls
      && ServedAs(lookup, conn.Dialed?, trip, pm, wire.world, key, sub, walk)
  {
    conn, log := NoSession, [];
    if !lookup.Got? {
      w.Write(LookupFailed(lookup));
      return;
    }
    var out := Direct(r, sub);
    conn, log := manager.DialCluster(key, luck);
    Finish(w, out, conn.Dialed?, trip, pm, key, wire);
    ServesAs(lookup, conn.Dialed?, trip, pm, wire.world, key, sub);
  }

  /** The rest of the proxy, once the connection was dialled or not. */
  method Finish(
      w: ResponseWriter, r: Request, dialed: bool, trip: Transport, pm: PeerManager, key: Key, wire: Wire)
    requires ValidKey(key)
    modifies w, wire
    ensures var walk := AfterDialling(dialed, trip, pm, wire.world, key, r.path);
      w.replies == old(w.replies) + [walk.reply] && wire.sent == old(wire.sent) + walk.calls
  {
    if dialed && trip.Answered? {
      w.Write(Reply(trip.status, trip.body));
    } else {
      HandleLocalError(w, r, pm, key, wire);
    }
  }

  /** The error handler of that proxy, or the default one if there is no peer
      manager. */
  method HandleLocalError(w: ResponseWriter, r: Request, pm: PeerManager, key: Key, wire: Wire)
    requires ValidKey(key)
    modifies w, wire
    ensures var walk := Fallback(pm, wire.world, key, r.path);
      && w.replies == old(w.replies) + [walk.reply] && wire.sent == old(wire.sent) + walk.calls
      && Searches(pm, wire.world, key, r.path, walk)
  {
    FallbackSearches(pm, wire.world, key, r.path);
    if pm.NoPeerManager? {
      w.Write(BAD_GATEWAY_REPLY);
      return;
    }
    var list := ListPeers(pm.endpoints, pm.self);
    if !list.Peers? {
      w.Write(ListFailed(list));
      return;
    }
    var next := new Cursor(list.peers);
    TryNextPeer(w, r, key, next, wire);
  }
}
