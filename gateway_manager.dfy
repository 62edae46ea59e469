/**
 * Create-or-update of one gateway for a route, with the issuer and zone
 * conflict checks that guard the update.
 */
module GatewayManager {
  import opened GatewayApi
  import opened Constants
  import opened Annotations
  import opened ResourceStore
  import opened ListenerManager

  /** The infrastructure annotation a gateway records its zone under. */
  const GatewayZoneAnnotation := "ipam.vitistack.io/zone"

  /** The route's zone key and the gateway's infrastructure zone key are the same literal. */
  lemma ZoneKeysAgree()
    ensures GatewayZoneAnnotation == AnnotationIPAMZone
  {
  }

  /** The gateway's issuer annotation; an absent one reads as "". */
  function RecordedIssuer(gateway: Gateway): string {
    Lookup(gateway.annotations, ClusterIssuerAnnotation)
  }

  /** The zone check passes when no zone is recorded or the recorded zone is `ipamZone`. */
  predicate ZoneAgrees(gateway: Gateway, ipamZone: string) {
    match gateway.infrastructureAnnotations
    case None => true
    case Some(infra) => GatewayZoneAnnotation !in infra || infra[GatewayZoneAnnotation] == ipamZone
  }

  /**
   * The conflict checks on an existing gateway: the issuer first, then the
   * zone if the gateway records one.
   */
  function ValidateGateway(gateway: Gateway, clusterIssuer: string, ipamZone: string): (o: Outcome)
    ensures o.Ok? <==> RecordedIssuer(gateway) == clusterIssuer && ZoneAgrees(gateway, ipamZone)
    ensures RecordedIssuer(gateway) != clusterIssuer
        ==> o == Fail(BadRequest(IssuerMismatch(RecordedIssuer(gateway), clusterIssuer)))
    ensures RecordedIssuer(gateway) == clusterIssuer && !ZoneAgrees(gateway, ipamZone)
        ==> o == Fail(BadRequest(ZoneMismatch(gateway.infrastructureAnnotations.value[GatewayZoneAnnotation], ipamZone)))
  {
    var existingIssuer := Lookup(gateway.annotations, ClusterIssuerAnnotation);
    if existingIssuer != clusterIssuer then
      Fail(BadRequest(IssuerMismatch(existingIssuer, clusterIssuer)))
    else if gateway.infrastructureAnnotations.Some?
         && GatewayZoneAnnotation in gateway.infrastructureAnnotations.value
         && gateway.infrastructureAnnotations.value[GatewayZoneAnnotation] != ipamZone then
      Fail(BadRequest(ZoneMismatch(gateway.infrastructureAnnotations.value[GatewayZoneAnnotation], ipamZone)))
    else
      Ok
  }

  /** A gateway without an issuer annotation rejects every non-empty issuer. */
  lemma MissingIssuerRejects(gateway: Gateway, clusterIssuer: string, ipamZone: string)
    requires ClusterIssuerAnnotation !in gateway.annotations
    requires clusterIssuer != ""
    ensures ValidateGateway(gateway, clusterIssuer, ipamZone) == Fail(BadRequest(IssuerMismatch("", clusterIssuer)))
  {
  }

  /**
   * The gateway created for `k`: the route's issuer as its only annotation,
   * class `eg`, the route's zone as its only infrastructure annotation, and
   * the listener set for `hosts` (which may be empty).
   */
  ghost predicate IsNewGateway(gateway: Gateway, k: Key, ipamZone: string, clusterIssuer: string, hosts: set<string>) {
    && GatewayKey(gateway) == k
    && gateway.annotations == map[ClusterIssuerAnnotation := clusterIssuer]
    && gateway.className == GatewayClassName
    && gateway.infrastructureAnnotations == Some(map[GatewayZoneAnnotation := ipamZone])
    && IsListenerSetFor(gateway.listeners, hosts, k.namespace)
  }

  /** A freshly created gateway passes the conflict checks for the values it was created with. */
  lemma NewGatewayValidates(gateway: Gateway, k: Key, ipamZone: string, clusterIssuer: string, hosts: set<string>)
    requires IsNewGateway(gateway, k, ipamZone, clusterIssuer, hosts)
    ensures ValidateGateway(gateway, clusterIssuer, ipamZone) == Ok
    ensures forall z, i :: ValidateGateway(gateway, i, z).Ok? ==> i == clusterIssuer && z == ipamZone
  {
  }

  /**
   * Collects the listeners for the gateway and creates it; a failed
   * collection returns before anything is created.
   */
  method CreateGateway(r: Store, gatewayName: string, gatewayNamespace: string, ipamZone: string, clusterIssuer: string)
    returns (o: Outcome)
    requires r.Valid()
    modifies r
    ensures r.Valid() && r.routes == old(r.routes) && old(r.issued) <= r.issued
    ensures var k := Key(gatewayNamespace, gatewayName);
            var hosts := HostnamesFor(r.routes.Values, gatewayName, gatewayNamespace);
            var ws := r.issued[|old(r.issued)|..];
            && |ws| <= 1
            && (ws == [] ==> o.Fail? && r.gateways == old(r.gateways))
            && (ws != [] ==> ws[0].CreateGateway? && IsNewGateway(ws[0].gateway, k, ipamZone, clusterIssuer, hosts))
            && (o.Ok? ==> k !in old(r.gateways) && r.gateways == old(r.gateways)[k := ws[0].gateway])
            && (o.Fail? ==> r.gateways == old(r.gateways) && !o.error.BadRequest?)
  {
    var collected := CollectListenersForGateway(r, gatewayName, gatewayNamespace);
    if collected.Failure? {
      assert r.issued[|old(r.issued)|..] == [];
      return Fail(collected.error);
    }
    var listeners := collected.value;

    var newGateway := Gateway(
      gatewayNamespace,
      gatewayName,
      map[ClusterIssuerAnnotation := clusterIssuer],
      GatewayClassName,
      Some(map[GatewayZoneAnnotation := ipamZone]),
      listeners);

    o := r.CreateGateway(newGateway);
    assert r.issued[|old(r.issued)|..] == [Request.CreateGateway(newGateway)];
  }

  /**
   * What ensure-gateway does to gateway `k`: at most one write and no other
   * gateway touched; an absent gateway is created as new; a present one that
   * fails the conflict checks is not written and the check's error (or a read
   * error) is returned; a present one that passes is recomputed. A rejected
   * request comes only from a failed check; every other failure is the store's.
   */
  ghost predicate EnsureEffect(k: Key, ipamZone: string, clusterIssuer: string, hosts: set<string>,
    o: Outcome, g0: map<Key, Gateway>, g1: map<Key, Gateway>, ws: seq<Request>)
  {
    && |ws| <= 1
    && OnlyChangedAt({k}, g0, g1)
    && (ws == [] ==> g1 == g0)
    && (o.Fail? ==> g1 == g0)
    && (o.Fail? && o.error.BadRequest? ==> k in g0 && o == ValidateGateway(g0[k], clusterIssuer, ipamZone))
    && (k !in g0 ==>
          && (ws != [] ==> ws[0].CreateGateway? && IsNewGateway(ws[0].gateway, k, ipamZone, clusterIssuer, hosts))
          && (o.Ok? ==> ws != [] && k in g1 && g1[k] == ws[0].gateway))
    && (k in g0 && ValidateGateway(g0[k], clusterIssuer, ipamZone).Fail? ==>
          && ws == []
          && (o == ValidateGateway(g0[k], clusterIssuer, ipamZone) || o == Fail(Unavailable)))
    && (k in g0 && ValidateGateway(g0[k], clusterIssuer, ipamZone).Ok? ==>
          && (ws != [] ==> IsSyncRequest(ws[0], g0[k], k.namespace, hosts))
          && (o.Ok? ==> Recomputed(k, hosts, g0, g1)))
  }

  /**
   * Creates the gateway when it is absent; otherwise checks the issuer and
   * the zone, and only when both pass recomputes its listeners (patch or
   * delete). Any other read error is returned without a write.
   */
  method EnsureGateway(r: Store, gatewayName: string, gatewayNamespace: string, ipamZone: string, clusterIssuer: string)
    returns (o: Outcome)
    requires r.Valid()
    modifies r
    ensures r.Valid() && r.routes == old(r.routes) && old(r.issued) <= r.issued
    ensures EnsureEffect(Key(gatewayNamespace, gatewayName), ipamZone, clusterIssuer,
              HostnamesFor(r.routes.Values, gatewayName, gatewayNamespace),
              o, old(r.gateways), r.gateways, r.issued[|old(r.issued)|..])
  {
    var k := Key(gatewayNamespace, gatewayName);
    var got := r.GetGateway(k);
    if got.Failure? {
      if got.error == NotFound {
        o := CreateGateway(r, gatewayName, gatewayNamespace, ipamZone, clusterIssuer);
        ghost var ws := r.issued[|old(r.issued)|..];
        if o.Ok? {
          forall k' | k' !in {k} ensures SameAt(k', old(r.gateways), r.gateways) {
          }
        }
        return o;
      }
      assert r.issued[|old(r.issued)|..] == [];
      return Fail(got.error);
    }
    var gateway := got.value;

    var existingIssuer := Lookup(gateway.annotations, ClusterIssuerAnnotation);
    if existingIssuer != clusterIssuer {
      assert r.issued[|old(r.issued)|..] == [];
      return Fail(BadRequest(IssuerMismatch(existingIssuer, clusterIssuer)));
    }

    if gateway.infrastructureAnnotations.Some? {
      var infra := gateway.infrastructureAnnotations.value;
      if GatewayZoneAnnotation in infra {
        var existingZone := infra[GatewayZoneAnnotation];
        if existingZone != ipamZone {
          assert r.issued[|old(r.issued)|..] == [];
          return Fail(BadRequest(ZoneMismatch(existingZone, ipamZone)));
        }
      }
    }

    o := UpdateGatewayListeners(r, gateway, gatewayNamespace);
    UpdateEffectIsSyncEffect(k, HostnamesFor(r.routes.Values, gatewayName, gatewayNamespace), o,
      old(r.gateways), r.gateways, r.issued[|old(r.issued)|..]);
  }
}
