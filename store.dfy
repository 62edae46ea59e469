/**
 * The cluster's resource store as the controller sees it through its client:
 * routes and gateways keyed by namespace and name. Every read and write may
 * fail; which calls fail is not determined (a failure leaves the store as it
 * was). `issued` records every write request sent, whether or not it took
 * effect, so that "no write" and "this write" can be stated.
 */
module ResourceStore {
  import opened GatewayApi

  /** A write request sent to the store. */
  datatype Request =
    | CreateGateway(gateway: Gateway)
    | ApplyGateway(key: Key, className: string, listeners: seq<Listener>)
    | DeleteGateway(key: Key)
    | UpdateRoute(route: Route)
    | ApplyRouteAnnotations(key: Key, annotations: map<string, string>)
  {
    predicate IsGatewayWrite() {
      CreateGateway? || ApplyGateway? || DeleteGateway?
    }

    function Target(): Key {
      match this
      case CreateGateway(g) => GatewayKey(g)
      case ApplyGateway(k, _, _) => k
      case DeleteGateway(k) => k
      case UpdateRoute(route) => RouteKey(route)
      case ApplyRouteAnnotations(k, _) => k
    }
  }

  /**
   * Server-side apply of the class name and the listener set on gateway `k`:
   * those two fields are replaced and every other field is kept; an absent
   * gateway is created with just them.
   */
  function Applied(gateways: map<Key, Gateway>, k: Key, className: string, listeners: seq<Listener>): (g: Gateway)
    ensures GatewayKey(g) == k || (k in gateways && GatewayKey(g) == GatewayKey(gateways[k]))
  {
    if k in gateways then gateways[k].(className := className, listeners := listeners)
    else Gateway(k.namespace, k.name, map[], className, None, listeners)
  }

  /** The gateways after a successful gateway write. */
  function GatewaysAfter(gateways: map<Key, Gateway>, w: Request): map<Key, Gateway> {
    match w
    case CreateGateway(g) => gateways[GatewayKey(g) := g]
    case ApplyGateway(k, cls, ls) => gateways[k := Applied(gateways, k, cls, ls)]
    case DeleteGateway(k) => gateways - {k}
    case _ => gateways
  }

  /**
   * The routes after a successful update of a stored route. The deletion
   * marker cannot be changed by an update; a deleting route whose last
   * finalizer is removed disappears.
   */
  function RoutesAfterUpdate(routes: map<Key, Route>, route: Route): map<Key, Route>
    requires RouteKey(route) in routes
  {
    var k := RouteKey(route);
    var stored := route.(deleting := routes[k].deleting);
    if stored.deleting && stored.finalizers == [] then routes - {k} else routes[k := stored]
  }

  /** The routes after a successful server-side apply of annotations on route `k`. */
  function RoutesAfterAnnotations(routes: map<Key, Route>, k: Key, annotations: map<string, string>): map<Key, Route>
    requires k in routes
  {
    routes[k := routes[k].(annotations := routes[k].annotations + annotations)]
  }

  class Store {
    var routes: map<Key, Route>
    var gateways: map<Key, Gateway>
    ghost var issued: seq<Request>

    /** Every object is stored under its own namespace and name. */
    ghost predicate Valid()
      reads this
    {
      && (forall k | k in routes :: RouteKey(routes[k]) == k)
      && (forall k | k in gateways :: GatewayKey(gateways[k]) == k)
    }

    constructor (routes: map<Key, Route>, gateways: map<Key, Gateway>)
      requires forall k | k in routes :: RouteKey(routes[k]) == k
      requires forall k | k in gateways :: GatewayKey(gateways[k]) == k
      ensures Valid() && this.routes == routes && this.gateways == gateways && issued == []
    {
      this.routes := routes;
      this.gateways := gateways;
      issued := [];
    }

    method GetRoute(k: Key) returns (res: Result<Route>)
      ensures k !in routes ==> res == Failure(NotFound)
      ensures k in routes ==> res == Success(routes[k]) || res == Failure(Unavailable)
    {
      if k !in routes {
        return Failure(NotFound);
      }
      var fails: bool := *;
      res := if fails then Failure(Unavailable) else Success(routes[k]);
    }

    method GetGateway(k: Key) returns (res: Result<Gateway>)
      ensures k !in gateways ==> res == Failure(NotFound)
      ensures k in gateways ==> res == Success(gateways[k]) || res == Failure(Unavailable)
    {
      if k !in gateways {
        return Failure(NotFound);
      }
      var fails: bool := *;
      res := if fails then Failure(Unavailable) else Success(gateways[k]);
    }

    /** Lists every stored route once, in no particular order. */
    method ListRoutes() returns (res: Result<seq<Route>>)
      ensures res.Failure? ==> res.error == Unavailable
      ensures res.Success? ==> forall route :: route in res.value <==> route in routes.Values
    {
      var fails: bool := *;
      if fails {
        return Failure(Unavailable);
      }
      var items: seq<Route> := [];
      var rest := routes.Values;
      while rest != {}
        invariant forall route :: route in routes.Values <==> route in items || route in rest
        decreases rest
      {
        var route :| route in rest;
        items := items + [route];
        rest := rest - {route};
      }
      return Success(items);
    }

    /** Full update of a stored route (optimistic concurrency may reject it). */
    method UpdateRoute(route: Route) returns (o: Outcome)
      requires Valid()
      modifies this
      ensures Valid() && gateways == old(gateways) && issued == old(issued) + [Request.UpdateRoute(route)]
      ensures RouteKey(route) !in old(routes) ==> o == Fail(NotFound)
      ensures o.Ok? ==> RouteKey(route) in old(routes) && routes == RoutesAfterUpdate(old(routes), route)
      ensures o.Fail? ==> routes == old(routes)
      ensures o.Fail? && RouteKey(route) in old(routes) ==> o.error == Conflict || o.error == Unavailable
    {
      issued := issued + [Request.UpdateRoute(route)];
      if RouteKey(route) !in routes {
        return Fail(NotFound);
      }
      var fails: bool := *;
      if fails {
        var conflict: bool := *;
        return Fail(if conflict then Conflict else Unavailable);
      }
      routes := RoutesAfterUpdate(routes, route);
      return Ok;
    }

    /** Server-side apply of route annotations: the given keys are set, the others kept. */
    method ApplyRouteAnnotations(k: Key, annotations: map<string, string>) returns (o: Outcome)
      requires Valid()
      modifies this
      ensures Valid() && gateways == old(gateways)
      ensures issued == old(issued) + [Request.ApplyRouteAnnotations(k, annotations)]
      ensures k !in old(routes) ==> o == Fail(NotFound)
      ensures o.Ok? ==> k in old(routes) && routes == RoutesAfterAnnotations(old(routes), k, annotations)
      ensures o.Fail? ==> routes == old(routes)
      ensures o.Fail? && k in old(routes) ==> o.error == Conflict || o.error == Unavailable
    {
      issued := issued + [Request.ApplyRouteAnnotations(k, annotations)];
      if k !in routes {
        return Fail(NotFound);
      }
      var fails: bool := *;
      if fails {
        var conflict: bool := *;
        return Fail(if conflict then Conflict else Unavailable);
      }
      routes := RoutesAfterAnnotations(routes, k, annotations);
      return Ok;
    }

    method CreateGateway(gateway: Gateway) returns (o: Outcome)
      requires Valid()
      modifies this
      ensures Valid() && routes == old(routes)
      ensures issued == old(issued) + [Request.CreateGateway(gateway)]
      ensures GatewayKey(gateway) in old(gateways) ==> o == Fail(AlreadyExists)
      ensures o.Ok? ==> GatewayKey(gateway) !in old(gateways) && gateways == GatewaysAfter(old(gateways), Request.CreateGateway(gateway))
      ensures o.Fail? ==> gateways == old(gateways)
      ensures o.Fail? && GatewayKey(gateway) !in old(gateways) ==> o.error == Unavailable
    {
      issued := issued + [Request.CreateGateway(gateway)];
      if GatewayKey(gateway) in gateways {
        return Fail(AlreadyExists);
      }
      var fails: bool := *;
      if fails {
        return Fail(Unavailable);
      }
      gateways := GatewaysAfter(gateways, Request.CreateGateway(gateway));
      return Ok;
    }

    /** Server-side apply, with forced ownership, of a gateway's class name and listeners. */
    method ApplyGateway(k: Key, className: string, listeners: seq<Listener>) returns (o: Outcome)
      requires Valid()
      modifies this
      ensures Valid() && routes == old(routes)
      ensures issued == old(issued) + [Request.ApplyGateway(k, className, listeners)]
      ensures o.Ok? ==> gateways == GatewaysAfter(old(gateways), Request.ApplyGateway(k, className, listeners))
      ensures o.Fail? ==> gateways == old(gateways) && (o.error == Conflict || o.error == Unavailable)
    {
      issued := issued + [Request.ApplyGateway(k, className, listeners)];
      var fails: bool := *;
      if fails {
        var conflict: bool := *;
        return Fail(if conflict then Conflict else Unavailable);
      }
      gateways := GatewaysAfter(gateways, Request.ApplyGateway(k, className, listeners));
      return Ok;
    }

    method DeleteGateway(k: Key) returns (o: Outcome)
      requires Valid()
      modifies this
      ensures Valid() && routes == old(routes)
      ensures issued == old(issued) + [Request.DeleteGateway(k)]
      ensures k !in old(gateways) ==> o == Fail(NotFound)
      ensures o.Ok? ==> k in old(gateways) && gateways == GatewaysAfter(old(gateways), Request.DeleteGateway(k))
      ensures o.Fail? ==> gateways == old(gateways)
      ensures o.Fail? && k in old(gateways) ==> o.error == Conflict || o.error == Unavailable
    {
      issued := issued + [Request.DeleteGateway(k)];
      if k !in gateways {
        return Fail(NotFound);
      }
      var fails: bool := *;
      if fails {
        var conflict: bool := *;
        return Fail(if conflict then Conflict else Unavailable);
      }
      gateways := GatewaysAfter(gateways, Request.DeleteGateway(k));
      return Ok;
    }
  }
}
