/**
 * The Kubernetes and Gateway API objects the controller reads and writes,
 * reduced to the fields the controller looks at. A Go pointer field that may
 * be nil is an `Option`; a Go map is a Dafny `map` (a nil map is the empty map).
 */
module GatewayApi {

  datatype Option<+T> = None | Some(value: T) {
    function GetOr(default: T): T {
      match this
      case Some(v) => v
      case None => default
    }
  }

  /** The error kinds the store and the controller return. */
  datatype Mismatch =
    | IssuerMismatch(gatewayIssuer: string, routeIssuer: string)
    | ZoneMismatch(gatewayZone: string, routeZone: string)

  datatype Error =
    | NotFound        // the object does not exist
    | AlreadyExists   // a create hit an existing object
    | Conflict        // optimistic-concurrency failure (stale object)
    | Unavailable     // any other transient failure of the store
    | BadRequest(mismatch: Mismatch)

  /** A Go `error` return: nil or an error. */
  datatype Outcome = Ok | Fail(error: Error)

  /** A Go `(value, error)` return. */
  datatype Result<+T> = Success(value: T) | Failure(error: Error)

  /** A namespaced object name (`types.NamespacedName`). */
  datatype Key = Key(namespace: string, name: string)

  /** Go's `m[k]` on a `map[string]string`: the empty string when `k` is absent. */
  function Lookup(m: map<string, string>, k: string): (v: string)
    ensures k in m ==> v == m[k]
    ensures k !in m ==> v == ""
  {
    if k in m then m[k] else ""
  }

  // ----- HTTPRoute -----

  /** `ParentReference`: the gateway a route attaches to; a nil namespace is `None`. */
  datatype ParentRef = ParentRef(name: string, namespace: Option<string>)

  /**
   * `HTTPRoute`: identity, annotations, parent references, hostnames, whether a
   * deletion timestamp is set, and the finalizer list.
   */
  datatype Route = Route(
    namespace: string,
    name: string,
    annotations: map<string, string>,
    parentRefs: seq<ParentRef>,
    hostnames: seq<string>,
    deleting: bool,
    finalizers: seq<string>)

  function RouteKey(route: Route): Key {
    Key(route.namespace, route.name)
  }

  // ----- Listener -----

  datatype ProtocolType = HTTPProtocol | HTTPSProtocol | TLSProtocol | TCPProtocol | UDPProtocol

  datatype FromNamespaces = FromAll | FromSame | FromSelector

  datatype TLSMode = Terminate | Passthrough

  /** `SecretObjectReference`: group and kind are pointers in Go. */
  datatype SecretObjectReference = SecretObjectReference(
    group: Option<string>,
    kind: Option<string>,
    name: string,
    namespace: Option<string>)

  datatype TLSConfig = TLSConfig(mode: Option<TLSMode>, certificateRefs: seq<SecretObjectReference>)

  /**
   * `Listener`; `allowedRoutesFrom` flattens `AllowedRoutes.Namespaces.From`
   * (None when any pointer on the way is nil).
   */
  datatype Listener = Listener(
    name: string,
    hostname: Option<string>,
    protocol: ProtocolType,
    port: int,
    allowedRoutesFrom: Option<FromNamespaces>,
    tls: Option<TLSConfig>)

  // ----- Gateway -----

  /**
   * `Gateway`: `infrastructureAnnotations` is `Spec.Infrastructure.Annotations`,
   * None when `Infrastructure` or its `Annotations` map is nil.
   */
  datatype Gateway = Gateway(
    namespace: string,
    name: string,
    annotations: map<string, string>,
    className: string,
    infrastructureAnnotations: Option<map<string, string>>,
    listeners: seq<Listener>)

  function GatewayKey(gateway: Gateway): Key {
    Key(gateway.namespace, gateway.name)
  }
}
