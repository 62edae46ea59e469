/** Finalizer and annotation keys, defaults, ports, class name and TLS suffix. */
module Constants {
  import opened GatewayApi

  /** The finalizer this controller adds to the routes it manages. */
  const HttprouteFinalizerName := "gatewayapi-operator.vitistack.io/finalizer"

  /** Marks a route that has been reconciled. */
  const ReconcileAnnotationKey := "gatewayapi-operator.vitistack.io/reconciled"

  /** Holds the `namespace/name` of the gateway a route was last synced to. */
  const PreviousGatewayAnnotationKey := "gatewayapi-operator.vitistack.io/previous-gateway"

  /** The gateway annotation recording its cert-manager cluster issuer. */
  const ClusterIssuerAnnotation := "cert-manager.io/cluster-issuer"

  const DefaultClusterIssuer := "internpki"

  const GatewayClassName := "eg"

  const HttpPort := 80

  const HttpsPort := 443

  const TlsCertSuffix := "-tls"

  const DefaultIPAMZone := "hnet-private"

  /** `ptr(s)`: a pointer to a copy of `s`; a non-nil pointer is `Some`. */
  function Ptr(s: string): Option<string> {
    Some(s)
  }

  /** `*p` for a non-nil pointer. */
  function Deref(p: Option<string>): string
    requires p.Some?
  {
    p.value
  }

  /** Dereferencing `ptr(s)` gives back `s`. */
  lemma PtrDeref(s: string)
    ensures Ptr(s).Some? && Deref(Ptr(s)) == s
  {
  }

  /** The three keys the controller writes on routes are distinct. */
  lemma OperatorKeysDistinct()
    ensures HttprouteFinalizerName != ReconcileAnnotationKey
    ensures HttprouteFinalizerName != PreviousGatewayAnnotationKey
    ensures ReconcileAnnotationKey != PreviousGatewayAnnotationKey
  {
  }

  /** The HTTPS port is 443 and differs from the plain HTTP port. */
  lemma PortsDistinct()
    ensures HttpPort != HttpsPort && HttpsPort == 443
  {
  }
}
