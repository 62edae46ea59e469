/**
 * Listener building, hostname aggregation over all routes, and the
 * delete-or-patch of one gateway's listener set.
 */
module ListenerManager {
  import opened GatewayApi
  import opened Constants
  import opened Annotations
  import opened ResourceStore

  // ----- Listener builder -----

  /**
   * The shape of every listener the controller builds: named after its
   * hostname, HTTPS on 443, routes from all namespaces, TLS terminated with
   * one certificate: the core `Secret` `{name}-tls` in the gateway's namespace.
   */
  ghost predicate IsHTTPSListener(l: Listener, gatewayNamespace: string) {
    && l.hostname == Some(l.name)
    && l.protocol == HTTPSProtocol
    && l.port == HttpsPort
    && l.allowedRoutesFrom == Some(FromAll)
    && l.tls.Some?
    && l.tls.value.mode == Some(Terminate)
    && |l.tls.value.certificateRefs| == 1
    && var cert := l.tls.value.certificateRefs[0];
       && cert.group.Some? && Deref(cert.group) == ""
       && cert.kind.Some? && Deref(cert.kind) == "Secret"
       && cert.name == l.name + TlsCertSuffix
       && cert.namespace == Some(gatewayNamespace)
  }

  function CreateHTTPSListener(hostname: string, gatewayNamespace: string): (l: Listener)
    ensures IsHTTPSListener(l, gatewayNamespace) && l.name == hostname
  {
    var cert := SecretObjectReference(Ptr(""), Ptr("Secret"), hostname + TlsCertSuffix, Some(gatewayNamespace));
    Listener(hostname, Some(hostname), HTTPSProtocol, HttpsPort, Some(FromAll), Some(TLSConfig(Some(Terminate), [cert])))
  }

  /** A listener of that shape is the one the builder makes for its name. */
  lemma HTTPSListenerIsBuilt(l: Listener, gatewayNamespace: string)
    requires IsHTTPSListener(l, gatewayNamespace)
    ensures l == CreateHTTPSListener(l.name, gatewayNamespace)
    ensures l.port != HttpPort
  {
    var cert := l.tls.value.certificateRefs[0];
    assert cert == SecretObjectReference(Ptr(""), Ptr("Secret"), l.name + TlsCertSuffix, Some(gatewayNamespace));
    assert l.tls.value.certificateRefs == [cert];
  }

  // ----- Route aggregator -----

  /** A parent reference names the gateway; a missing namespace means the gateway's own. */
  predicate RefersTo(ref: ParentRef, gatewayName: string, gatewayNamespace: string) {
    ref.name == gatewayName && ref.namespace.GetOr(gatewayNamespace) == gatewayNamespace
  }

  predicate IsEnabled(route: Route) {
    Lookup(route.annotations, AnnotationUseHttprouteOperator) == "true"
  }

  /** A route whose hostnames the gateway serves: not deleting, enabled, and some parent reference names it. */
  predicate Contributes(route: Route, gatewayName: string, gatewayNamespace: string) {
    && !route.deleting
    && IsEnabled(route)
    && exists i :: 0 <= i < |route.parentRefs| && RefersTo(route.parentRefs[i], gatewayName, gatewayNamespace)
  }

  function HostnamesOf(route: Route): set<string> {
    set h | h in route.hostnames
  }

  /** The hostname set collected from `routes`, scanned front to back. */
  function Aggregate(routes: seq<Route>, gatewayName: string, gatewayNamespace: string): set<string>
    decreases |routes|
  {
    if routes == [] then {}
    else
      var last := routes[|routes| - 1];
      Aggregate(routes[..|routes| - 1], gatewayName, gatewayNamespace)
      + (if Contributes(last, gatewayName, gatewayNamespace) then HostnamesOf(last) else {})
  }

  /** Reference definition: every hostname of every contributing route in a set of routes. */
  ghost function HostnamesFor(routes: set<Route>, gatewayName: string, gatewayNamespace: string): set<string> {
    set route, h | route in routes && Contributes(route, gatewayName, gatewayNamespace) && h in route.hostnames :: h
  }

  /** A hostname is collected exactly when some contributing route declares it. */
  lemma {:induction false} AggregateMembership(routes: seq<Route>, gatewayName: string, gatewayNamespace: string, h: string)
    ensures h in Aggregate(routes, gatewayName, gatewayNamespace)
        <==> exists i :: 0 <= i < |routes| && Contributes(routes[i], gatewayName, gatewayNamespace) && h in routes[i].hostnames
    decreases |routes|
  {
    if routes != [] {
      var init := routes[..|routes| - 1];
      AggregateMembership(init, gatewayName, gatewayNamespace, h);
      if exists i :: 0 <= i < |routes| && Contributes(routes[i], gatewayName, gatewayNamespace) && h in routes[i].hostnames {
        var i :| 0 <= i < |routes| && Contributes(routes[i], gatewayName, gatewayNamespace) && h in routes[i].hostnames;
        if i < |init| {
          assert init[i] == routes[i];
        }
      }
      if exists i :: 0 <= i < |init| && Contributes(init[i], gatewayName, gatewayNamespace) && h in init[i].hostnames {
        var i :| 0 <= i < |init| && Contributes(init[i], gatewayName, gatewayNamespace) && h in init[i].hostnames;
        assert routes[i] == init[i];
      }
    }
  }

  /** The scan computes the reference set of any set holding exactly the scanned routes. */
  lemma AggregateIsHostnamesFor(routes: seq<Route>, all: set<Route>, gatewayName: string, gatewayNamespace: string)
    requires forall route :: route in routes <==> route in all
    ensures Aggregate(routes, gatewayName, gatewayNamespace) == HostnamesFor(all, gatewayName, gatewayNamespace)
  {
    forall h | h in Aggregate(routes, gatewayName, gatewayNamespace)
      ensures h in HostnamesFor(all, gatewayName, gatewayNamespace)
    {
      AggregateMembership(routes, gatewayName, gatewayNamespace, h);
      var i :| 0 <= i < |routes| && Contributes(routes[i], gatewayName, gatewayNamespace) && h in routes[i].hostnames;
      assert routes[i] in all;
    }
    forall h | h in HostnamesFor(all, gatewayName, gatewayNamespace)
      ensures h in Aggregate(routes, gatewayName, gatewayNamespace)
    {
      var route :| route in all && Contributes(route, gatewayName, gatewayNamespace) && h in route.hostnames;
      var i :| 0 <= i < |routes| && routes[i] == route;
      AggregateMembership(routes, gatewayName, gatewayNamespace, h);
    }
  }

  /** Route order and repeated routes do not change the collected hostnames. */
  lemma AggregateOrderIndependent(a: seq<Route>, b: seq<Route>, gatewayName: string, gatewayNamespace: string)
    requires forall route :: route in a <==> route in b
    ensures Aggregate(a, gatewayName, gatewayNamespace) == Aggregate(b, gatewayName, gatewayNamespace)
  {
    var all := set route | route in a;
    AggregateIsHostnamesFor(a, all, gatewayName, gatewayNamespace);
    AggregateIsHostnamesFor(b, all, gatewayName, gatewayNamespace);
  }

  /** A route that is deleting, disabled, or names another gateway adds nothing. */
  lemma NonContributingRouteAddsNothing(routes: set<Route>, route: Route, gatewayName: string, gatewayNamespace: string)
    requires !Contributes(route, gatewayName, gatewayNamespace)
    ensures HostnamesFor(routes + {route}, gatewayName, gatewayNamespace) == HostnamesFor(routes - {route}, gatewayName, gatewayNamespace)
  {
    var with := HostnamesFor(routes + {route}, gatewayName, gatewayNamespace);
    var without := HostnamesFor(routes - {route}, gatewayName, gatewayNamespace);
    forall h | h in with ensures h in without {
      var x :| x in routes + {route} && Contributes(x, gatewayName, gatewayNamespace) && h in x.hostnames;
      assert x in routes - {route};
    }
  }

  /** A contributing route adds exactly its own hostnames. */
  lemma ContributingRouteAddsItsHostnames(routes: set<Route>, route: Route, gatewayName: string, gatewayNamespace: string)
    requires Contributes(route, gatewayName, gatewayNamespace)
    ensures HostnamesFor(routes + {route}, gatewayName, gatewayNamespace)
         == HostnamesFor(routes - {route}, gatewayName, gatewayNamespace) + HostnamesOf(route)
  {
    var with := HostnamesFor(routes + {route}, gatewayName, gatewayNamespace);
    var without := HostnamesFor(routes - {route}, gatewayName, gatewayNamespace);
    forall h | h in with ensures h in without + HostnamesOf(route) {
      var x :| x in routes + {route} && Contributes(x, gatewayName, gatewayNamespace) && h in x.hostnames;
      if x != route {
        assert x in routes - {route};
      }
    }
  }

  // ----- Listener sets -----

  /**
   * `ls` serves exactly `hosts`: one builder listener per hostname, pairwise
   * distinct names, as many listeners as hostnames.
   */
  ghost predicate IsListenerSetFor(ls: seq<Listener>, hosts: set<string>, gatewayNamespace: string) {
    && (forall i | 0 <= i < |ls| :: ls[i] == CreateHTTPSListener(ls[i].name, gatewayNamespace))
    && (forall i, j | 0 <= i < j < |ls| :: ls[i].name != ls[j].name)
    && (forall h :: h in hosts <==> exists i :: 0 <= i < |ls| && ls[i].name == h)
    && |ls| == |hosts|
  }

  /** Two listener sets for the same hostnames hold the same listeners: only their order may differ. */
  lemma ListenerSetsAgree(ls1: seq<Listener>, ls2: seq<Listener>, hosts: set<string>, gatewayNamespace: string)
    requires IsListenerSetFor(ls1, hosts, gatewayNamespace)
    requires IsListenerSetFor(ls2, hosts, gatewayNamespace)
    ensures forall l :: l in ls1 <==> l in ls2
  {
    forall l | l in ls1 ensures l in ls2 {
      var i :| 0 <= i < |ls1| && ls1[i] == l;
      assert l.name in hosts;
      var j :| 0 <= j < |ls2| && ls2[j].name == l.name;
      assert ls2[j] == CreateHTTPSListener(l.name, gatewayNamespace);
    }
    forall l | l in ls2 ensures l in ls1 {
      var j :| 0 <= j < |ls2| && ls2[j] == l;
      assert l.name in hosts;
      var i :| 0 <= i < |ls1| && ls1[i].name == l.name;
      assert ls1[i] == CreateHTTPSListener(l.name, gatewayNamespace);
    }
  }

  /** One more scanned route adds its hostnames exactly when it contributes. */
  lemma AggregateStep(routes: seq<Route>, i: nat, gatewayName: string, gatewayNamespace: string)
    requires i < |routes|
    ensures Aggregate(routes[..i + 1], gatewayName, gatewayNamespace)
         == Aggregate(routes[..i], gatewayName, gatewayNamespace)
            + (if Contributes(routes[i], gatewayName, gatewayNamespace) then HostnamesOf(routes[i]) else {})
  {
    assert routes[..i + 1][..i] == routes[..i];
  }

  /** Appending the listener of a new hostname extends a listener set by that hostname. */
  lemma ListenerSetExtend(ls: seq<Listener>, hosts: set<string>, h: string, gatewayNamespace: string)
    requires IsListenerSetFor(ls, hosts, gatewayNamespace)
    requires h !in hosts
    ensures IsListenerSetFor(ls + [CreateHTTPSListener(h, gatewayNamespace)], hosts + {h}, gatewayNamespace)
  {
    var ls' := ls + [CreateHTTPSListener(h, gatewayNamespace)];
    forall x ensures x in hosts + {h} <==> exists i :: 0 <= i < |ls'| && ls'[i].name == x {
      if x in hosts {
        var i :| 0 <= i < |ls| && ls[i].name == x;
        assert ls'[i].name == x;
      }
      if x == h {
        assert ls'[|ls|].name == x;
      }
      if exists i :: 0 <= i < |ls'| && ls'[i].name == x {
        var i :| 0 <= i < |ls'| && ls'[i].name == x;
        if i < |ls| {
          assert ls[i].name == x;
        }
      }
    }
    forall i, j | 0 <= i < j < |ls'| ensures ls'[i].name != ls'[j].name {
      if j == |ls| {
        assert ls[i].name in hosts;
      }
    }
  }

  /**
   * The route scan: skips deleting and disabled routes, and takes the
   * hostnames of a route as soon as one of its parent references names the
   * gateway (then stops looking at its references).
   */
  method CollectHostnames(items: seq<Route>, gatewayName: string, gatewayNamespace: string)
    returns (hostnameSet: set<string>)
    ensures hostnameSet == Aggregate(items, gatewayName, gatewayNamespace)
  {
    hostnameSet := {};
    for i := 0 to |items|
      invariant hostnameSet == Aggregate(items[..i], gatewayName, gatewayNamespace)
    {
      AggregateStep(items, i, gatewayName, gatewayNamespace);
      var route := items[i];
      if route.deleting {
        continue;
      }
      if Lookup(route.annotations, AnnotationUseHttprouteOperator) != "true" {
        continue;
      }
      ghost var before := hostnameSet;
      for j := 0 to |route.parentRefs|
        invariant hostnameSet == before
        invariant forall j' | 0 <= j' < j :: !RefersTo(route.parentRefs[j'], gatewayName, gatewayNamespace)
      {
        var parentRef := route.parentRefs[j];
        var refName := parentRef.name;
        var refNamespace := gatewayNamespace;
        if parentRef.namespace.Some? {
          refNamespace := parentRef.namespace.value;
        }
        if refName == gatewayName && refNamespace == gatewayNamespace {
          for k := 0 to |route.hostnames|
            invariant hostnameSet == before + set h | h in route.hostnames[..k]
          {
            assert route.hostnames[..k + 1] == route.hostnames[..k] + [route.hostnames[k]];
            hostnameSet := hostnameSet + {route.hostnames[k]};
          }
          assert route.hostnames[..|route.hostnames|] == route.hostnames;
          assert RefersTo(route.parentRefs[j], gatewayName, gatewayNamespace);
          break;
        }
      }
    }
    assert items[..|items|] == items;
  }

  /** One listener per hostname of the set, in whatever order the set is walked. */
  method BuildListeners(hostnameSet: set<string>, gatewayNamespace: string) returns (listeners: seq<Listener>)
    ensures IsListenerSetFor(listeners, hostnameSet, gatewayNamespace)
  {
    listeners := [];
    var remaining := hostnameSet;
    while remaining != {}
      invariant remaining <= hostnameSet
      invariant IsListenerSetFor(listeners, hostnameSet - remaining, gatewayNamespace)
      decreases remaining
    {
      var hostname :| hostname in remaining;
      var listener := CreateHTTPSListener(hostname, gatewayNamespace);
      ListenerSetExtend(listeners, hostnameSet - remaining, hostname, gatewayNamespace);
      assert hostnameSet - (remaining - {hostname}) == (hostnameSet - remaining) + {hostname};
      listeners := listeners + [listener];
      remaining := remaining - {hostname};
    }
  }

  /**
   * Lists every route, collects the hostnames of those that contribute to the
   * gateway, and builds one listener per distinct hostname.
   */
  method CollectListenersForGateway(r: Store, gatewayName: string, gatewayNamespace: string)
    returns (res: Result<seq<Listener>>)
    ensures res.Failure? ==> res.error == Unavailable
    ensures res.Success? ==> IsListenerSetFor(res.value, HostnamesFor(r.routes.Values, gatewayName, gatewayNamespace), gatewayNamespace)
  {
    var listed := r.ListRoutes();
    if listed.Failure? {
      return Failure(listed.error);
    }
    var hostnameSet := CollectHostnames(listed.value, gatewayName, gatewayNamespace);
    AggregateIsHostnamesFor(listed.value, r.routes.Values, gatewayName, gatewayNamespace);
    var listeners := BuildListeners(hostnameSet, gatewayNamespace);
    return Success(listeners);
  }

  // ----- Delete or patch -----

  /**
   * The one write that brings `gateway` in line with `hosts`: delete it when
   * no hostname remains, otherwise apply exactly the listener set for `hosts`
   * with the gateway's existing class name.
   */
  ghost predicate IsSyncRequest(w: Request, gateway: Gateway, gatewayNamespace: string, hosts: set<string>) {
    if hosts == {} then w == DeleteGateway(GatewayKey(gateway))
    else
      && w.ApplyGateway?
      && w.key == Key(gatewayNamespace, gateway.name)
      && w.className == gateway.className
      && IsListenerSetFor(w.listeners, hosts, gatewayNamespace)
  }

  /** Gateway `k` is as a completed sync to `hosts` leaves it. */
  ghost predicate Recomputed(k: Key, hosts: set<string>, g0: map<Key, Gateway>, g1: map<Key, Gateway>) {
    if k !in g0 || hosts == {} then k !in g1
    else
      && k in g1
      && g1[k] == g0[k].(listeners := g1[k].listeners)
      && IsListenerSetFor(g1[k].listeners, hosts, k.namespace)
  }

  ghost predicate SameAt(k: Key, g0: map<Key, Gateway>, g1: map<Key, Gateway>) {
    (k in g0 <==> k in g1) && (k in g0 ==> g0[k] == g1[k])
  }

  /** Only the gateways named in `ks` may differ. */
  ghost predicate OnlyChangedAt(ks: set<Key>, g0: map<Key, Gateway>, g1: map<Key, Gateway>) {
    forall k :: k !in ks ==> SameAt(k, g0, g1)
  }

  /** A successful sync request on a stored gateway recomputes it and touches nothing else. */
  lemma SyncRequestRecomputes(w: Request, k: Key, hosts: set<string>, g0: map<Key, Gateway>)
    requires k in g0 && GatewayKey(g0[k]) == k
    requires IsSyncRequest(w, g0[k], k.namespace, hosts)
    ensures Recomputed(k, hosts, g0, GatewaysAfter(g0, w))
    ensures OnlyChangedAt({k}, g0, GatewaysAfter(g0, w))
  {
    var g1 := GatewaysAfter(g0, w);
    forall k' | k' !in {k} ensures SameAt(k', g0, g1) {
    }
  }

  /**
   * The full outcome of syncing gateway `k` to `hosts` through one fetch and
   * `updateGatewayListeners`: at most one write, which is the sync request;
   * an absent gateway is left alone without error; success means the gateway
   * is recomputed; failure means nothing changed.
   */
  ghost predicate GatewaySyncEffect(k: Key, hosts: set<string>, o: Outcome, g0: map<Key, Gateway>, g1: map<Key, Gateway>, ws: seq<Request>) {
    && OnlyChangedAt({k}, g0, g1)
    && |ws| <= 1
    && (ws == [] ==> g1 == g0)
    && (ws != [] ==> k in g0 && IsSyncRequest(ws[0], g0[k], k.namespace, hosts))
    && (k !in g0 ==> o == Ok && ws == [])
    && (o.Ok? ==> Recomputed(k, hosts, g0, g1))
    && (o.Fail? ==> g1 == g0 && !o.error.BadRequest?)
  }

  /**
   * Recomputes the listener set of `gateway`; deletes the gateway when it is
   * empty, otherwise applies it together with the existing class name.
   */
  method UpdateGatewayListeners(r: Store, gateway: Gateway, gatewayNamespace: string) returns (o: Outcome)
    requires r.Valid()
    modifies r
    ensures r.Valid() && r.routes == old(r.routes) && old(r.issued) <= r.issued
    ensures var hosts := HostnamesFor(old(r.routes).Values, gateway.name, gatewayNamespace);
            var ws := r.issued[|old(r.issued)|..];
            && (ws == [] ==> o.Fail? && r.gateways == old(r.gateways))
            && (ws != [] ==> |ws| == 1 && IsSyncRequest(ws[0], gateway, gatewayNamespace, hosts))
            && (o.Ok? ==> r.gateways == GatewaysAfter(old(r.gateways), ws[0]))
            && (o.Fail? ==> r.gateways == old(r.gateways) && !o.error.BadRequest?)
  {
    var gatewayName := gateway.name;
    var collected := CollectListenersForGateway(r, gatewayName, gatewayNamespace);
    if collected.Failure? {
      assert r.issued[|old(r.issued)|..] == [];
      return Fail(collected.error);
    }
    var newListeners := collected.value;

    if |newListeners| == 0 {
      o := r.DeleteGateway(GatewayKey(gateway));
      assert r.issued[|old(r.issued)|..] == [DeleteGateway(GatewayKey(gateway))];
      return o;
    }

    o := r.ApplyGateway(Key(gatewayNamespace, gatewayName), gateway.className, newListeners);
    assert r.issued[|old(r.issued)|..] == [ApplyGateway(Key(gatewayNamespace, gatewayName), gateway.className, newListeners)];
  }

  /** A fetched gateway synced by `UpdateGatewayListeners` meets `GatewaySyncEffect`. */
  lemma UpdateEffectIsSyncEffect(k: Key, hosts: set<string>, o: Outcome, g0: map<Key, Gateway>, g1: map<Key, Gateway>, ws: seq<Request>)
    requires k in g0 && GatewayKey(g0[k]) == k
    requires ws == [] ==> o.Fail? && g1 == g0
    requires ws != [] ==> |ws| == 1 && IsSyncRequest(ws[0], g0[k], k.namespace, hosts)
    requires o.Ok? ==> g1 == GatewaysAfter(g0, ws[0])
    requires o.Fail? ==> g1 == g0 && !o.error.BadRequest?
    ensures GatewaySyncEffect(k, hosts, o, g0, g1, ws)
  {
    if ws != [] {
      SyncRequestRecomputes(ws[0], k, hosts, g0);
    }
    if o.Fail? {
      forall k' | k' !in {k} ensures SameAt(k', g0, g1) {
      }
    }
  }
}
