/** The route annotation contract: the keys a route owner sets. */
module Annotations {
  import opened Constants

  /** Only the exact value "true" enables a route. */
  const AnnotationUseHttprouteOperator := "gatewayapi-operator.vitistack.io/enabled"

  const AnnotationIPAMZone := "ipam.vitistack.io/zone"

  const AnnotationClusterIssuer := "gatewayapi-operator.vitistack.io/cluster-issuer"

  predicate IsUserKey(k: string) {
    k == AnnotationUseHttprouteOperator || k == AnnotationIPAMZone || k == AnnotationClusterIssuer
  }

  predicate IsOperatorKey(k: string) {
    k == ReconcileAnnotationKey || k == PreviousGatewayAnnotationKey
  }

  /**
   * No user-facing key is one the controller writes, and the route's issuer
   * key is not the key a gateway records its issuer under.
   */
  lemma UserAndOperatorKeysDisjoint(k: string)
    ensures IsUserKey(k) ==> !IsOperatorKey(k)
    ensures AnnotationClusterIssuer != ClusterIssuerAnnotation
  {
  }
}
