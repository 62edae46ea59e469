/**
 * The per-route reconcile: load, enabled and parent-reference checks,
 * deletion with finalizer release, migration away from the previous gateway,
 * finalizer add, annotation bookkeeping, issuer and zone defaults, and the
 * create-or-update of the target gateway.
 */
module HttpRouteController {
  import opened GatewayApi
  import opened Constants
  import opened Annotations
  import opened ResourceStore
  import opened ListenerManager
  import opened GatewayManager

  /** Attempts made by a retry-on-conflict loop (client-go's default backoff has 5 steps). */
  const RetrySteps := 5

  // ----- Target gateway -----

  /** The gateway named by the first parent reference; a missing namespace means the route's own. */
  function TargetGateway(route: Route): Key
    requires route.parentRefs != []
  {
    Key(route.parentRefs[0].namespace.GetOr(route.namespace), route.parentRefs[0].name)
  }

  /** The route being reconciled is always among those aggregated into its target gateway. */
  lemma TargetRouteContributes(route: Route)
    requires !route.deleting && IsEnabled(route) && route.parentRefs != []
    ensures Contributes(route, TargetGateway(route).name, TargetGateway(route).namespace)
  {
    assert RefersTo(route.parentRefs[0], TargetGateway(route).name, TargetGateway(route).namespace);
  }

  /**
   * The two defaults differ: for a reference without namespace the reconcile
   * targets the route's namespace, while the aggregation of a gateway with
   * that name in any other namespace also counts the route.
   */
  lemma RefNamespaceDefaultsDiffer(route: Route, gatewayNamespace: string)
    requires !route.deleting && IsEnabled(route)
    requires |route.parentRefs| == 1 && route.parentRefs[0].namespace == None
    requires gatewayNamespace != route.namespace
    ensures TargetGateway(route) == Key(route.namespace, route.parentRefs[0].name)
    ensures Contributes(route, route.parentRefs[0].name, gatewayNamespace)
  {
    assert RefersTo(route.parentRefs[0], route.parentRefs[0].name, gatewayNamespace);
  }

  /** The text of a gateway reference: `namespace/name`. */
  function GatewayRef(k: Key): string {
    k.namespace + "/" + k.name
  }

  // ----- Gateway reference parsing -----

  /** The index of the first '/' in `s`, or `|s|` when there is none. */
  function FirstSlash(s: string): (i: nat)
    ensures i <= |s|
    ensures i < |s| ==> s[i] == '/'
    ensures forall j | 0 <= j < i :: s[j] != '/'
  {
    if s == [] then 0
    else if s[0] == '/' then 0
    else 1 + FirstSlash(s[1..])
  }

  lemma FirstSlashAt(s: string, i: nat)
    requires i <= |s|
    requires i < |s| ==> s[i] == '/'
    requires forall j | 0 <= j < i :: s[j] != '/'
    ensures FirstSlash(s) == i
  {
  }

  /** Namespace and name split at the first '/'; both empty when there is no '/'. */
  function SplitGatewayRef(gatewayRef: string): (parts: (string, string))
    ensures FirstSlash(gatewayRef) < |gatewayRef| ==> gatewayRef == parts.0 + "/" + parts.1 && '/' !in parts.0
    ensures FirstSlash(gatewayRef) == |gatewayRef| ==> parts == ("", "")
  {
    var i := FirstSlash(gatewayRef);
    if i < |gatewayRef| then (gatewayRef[..i], gatewayRef[i + 1..]) else ("", "")
  }

  /** A reference the old-gateway update acts on: both sides of the split non-empty. */
  predicate IsValidRef(gatewayRef: string) {
    SplitGatewayRef(gatewayRef).0 != "" && SplitGatewayRef(gatewayRef).1 != ""
  }

  function RefKey(gatewayRef: string): Key {
    Key(SplitGatewayRef(gatewayRef).0, SplitGatewayRef(gatewayRef).1)
  }

  /** Parsing a written reference gives back the gateway, when its namespace has no '/'. */
  lemma RefRoundTrip(k: Key)
    requires '/' !in k.namespace
    ensures SplitGatewayRef(GatewayRef(k)) == (k.namespace, k.name)
    ensures k.namespace != "" && k.name != "" ==> IsValidRef(GatewayRef(k)) && RefKey(GatewayRef(k)) == k
  {
    var s := GatewayRef(k);
    assert s[|k.namespace|] == '/';
    forall j | 0 <= j < |k.namespace| ensures s[j] != '/' {
      assert s[j] == k.namespace[j];
    }
    FirstSlashAt(s, |k.namespace|);
    assert s[..|k.namespace|] == k.namespace;
    assert s[|k.namespace| + 1..] == k.name;
  }

  /** A valid reference that differs from the current one names a different gateway. */
  lemma OtherRefOtherGateway(gatewayRef: string, k: Key)
    requires IsValidRef(gatewayRef) && gatewayRef != GatewayRef(k)
    ensures RefKey(gatewayRef) != k
  {
  }

  /** Walks the reference up to its first '/' and splits there. */
  method ParseGatewayRef(gatewayRef: string) returns (gatewayNamespace: string, gatewayName: string)
    ensures (gatewayNamespace, gatewayName) == SplitGatewayRef(gatewayRef)
  {
    gatewayNamespace, gatewayName := "", "";
    for i := 0 to |gatewayRef|
      invariant forall j | 0 <= j < i :: gatewayRef[j] != '/'
      invariant gatewayNamespace == "" && gatewayName == ""
    {
      if gatewayRef[i] == '/' {
        FirstSlashAt(gatewayRef, i);
        gatewayNamespace := gatewayRef[..i];
        gatewayName := gatewayRef[i + 1..];
        return;
      }
    }
    FirstSlashAt(gatewayRef, |gatewayRef|);
  }

  // ----- Migration -----

  /** The previous-gateway annotation is set and names another reference than the current one. */
  predicate NeedsMigration(route: Route, current: Key) {
    var previous := Lookup(route.annotations, PreviousGatewayAnnotationKey);
    previous != "" && previous != GatewayRef(current)
  }

  /** The gateway a reconcile may sync besides its target: the parsed previous reference, when it is acted on. */
  function MigratedFrom(route: Route, current: Key): set<Key> {
    var previous := Lookup(route.annotations, PreviousGatewayAnnotationKey);
    if NeedsMigration(route, current) && IsValidRef(previous) then {RefKey(previous)} else {}
  }

  // ----- Annotation bookkeeping -----

  /** The reconciled marker is missing or the previous-gateway annotation is not the current reference. */
  predicate AnnotationsNeedUpdate(annotations: map<string, string>, currentRef: string) {
    ReconcileAnnotationKey !in annotations || Lookup(annotations, PreviousGatewayAnnotationKey) != currentRef
  }

  /** The annotations after bookkeeping: the marker added if missing, the current reference recorded. */
  function SyncedAnnotations(annotations: map<string, string>, currentRef: string): (synced: map<string, string>)
    ensures ReconcileAnnotationKey in synced
    ensures Lookup(synced, PreviousGatewayAnnotationKey) == currentRef
    ensures forall k | k in annotations :: k in synced
    ensures forall k | k in synced && !IsOperatorKey(k) :: k in annotations && synced[k] == annotations[k]
    ensures ReconcileAnnotationKey in annotations ==> synced[ReconcileAnnotationKey] == annotations[ReconcileAnnotationKey]
  {
    var marked := if ReconcileAnnotationKey !in annotations then annotations[ReconcileAnnotationKey := "true"] else annotations;
    if Lookup(marked, PreviousGatewayAnnotationKey) != currentRef then marked[PreviousGatewayAnnotationKey := currentRef]
    else marked
  }

  /** A patch is needed exactly when bookkeeping would change the annotations. */
  lemma NeedsUpdateIffChanged(annotations: map<string, string>, currentRef: string)
    ensures AnnotationsNeedUpdate(annotations, currentRef) <==> SyncedAnnotations(annotations, currentRef) != annotations
  {
    if !AnnotationsNeedUpdate(annotations, currentRef) {
      assert SyncedAnnotations(annotations, currentRef) == annotations;
    }
  }

  /** After bookkeeping nothing more is needed, so a second reconcile sends no annotation patch. */
  lemma SyncedNeedsNoUpdate(annotations: map<string, string>, currentRef: string)
    ensures !AnnotationsNeedUpdate(SyncedAnnotations(annotations, currentRef), currentRef)
    ensures SyncedAnnotations(SyncedAnnotations(annotations, currentRef), currentRef) == SyncedAnnotations(annotations, currentRef)
  {
    NeedsUpdateIffChanged(SyncedAnnotations(annotations, currentRef), currentRef);
  }

  /** Bookkeeping leaves the enabled, zone and issuer annotations as they were. */
  lemma SyncKeepsUserAnnotations(annotations: map<string, string>, currentRef: string, k: string)
    requires IsUserKey(k)
    ensures Lookup(SyncedAnnotations(annotations, currentRef), k) == Lookup(annotations, k)
  {
    UserAndOperatorKeysDisjoint(k);
  }

  /**
   * The in-place bookkeeping on a copy of the route's annotations, with a
   * flag raised by each change.
   */
  method SyncRouteAnnotations(routeAnnotations: map<string, string>, currentGatewayRef: string)
    returns (annotations: map<string, string>, needsUpdate: bool)
    ensures annotations == SyncedAnnotations(routeAnnotations, currentGatewayRef)
    ensures needsUpdate == AnnotationsNeedUpdate(routeAnnotations, currentGatewayRef)
  {
    annotations := routeAnnotations;
    needsUpdate := false;
    if ReconcileAnnotationKey !in annotations {
      annotations := annotations[ReconcileAnnotationKey := "true"];
      needsUpdate := true;
    }
    if Lookup(annotations, PreviousGatewayAnnotationKey) != currentGatewayRef {
      annotations := annotations[PreviousGatewayAnnotationKey := currentGatewayRef];
      needsUpdate := true;
    }
  }

  /** Applying the synced annotations over the route's own gives the synced annotations. */
  lemma ApplySynced(annotations: map<string, string>, currentRef: string)
    ensures annotations + SyncedAnnotations(annotations, currentRef) == SyncedAnnotations(annotations, currentRef)
  {
  }

  /** Once the bookkeeping patch took effect, reconciling the stored route again needs no patch. */
  lemma SecondRunSendsNoPatch(routes: map<Key, Route>, req: Key, currentRef: string)
    requires req in routes
    ensures var synced := SyncedAnnotations(routes[req].annotations, currentRef);
            !AnnotationsNeedUpdate(RoutesAfterAnnotations(routes, req, synced)[req].annotations, currentRef)
  {
    ApplySynced(routes[req].annotations, currentRef);
    SyncedNeedsNoUpdate(routes[req].annotations, currentRef);
  }

  // ----- Effective zone and issuer -----

  /** The route's zone, or `hnet-private` when it declares none; never empty. */
  function EffectiveZone(annotations: map<string, string>): (zone: string)
    ensures zone != ""
    ensures Lookup(annotations, AnnotationIPAMZone) != "" ==> zone == annotations[AnnotationIPAMZone]
    ensures Lookup(annotations, AnnotationIPAMZone) == "" ==> zone == DefaultIPAMZone
  {
    var declared := Lookup(annotations, AnnotationIPAMZone);
    if declared == "" then DefaultIPAMZone else declared
  }

  /** The route's issuer, or `internpki` when it declares none; never empty. */
  function EffectiveIssuer(annotations: map<string, string>): (issuer: string)
    ensures issuer != ""
    ensures Lookup(annotations, AnnotationClusterIssuer) != "" ==> issuer == annotations[AnnotationClusterIssuer]
    ensures Lookup(annotations, AnnotationClusterIssuer) == "" ==> issuer == DefaultClusterIssuer
  {
    var declared := Lookup(annotations, AnnotationClusterIssuer);
    if declared == "" then DefaultClusterIssuer else declared
  }

  /** A gateway without an issuer annotation rejects every route. */
  lemma GatewayWithoutIssuerRejectsEveryRoute(gateway: Gateway, annotations: map<string, string>)
    requires ClusterIssuerAnnotation !in gateway.annotations
    ensures ValidateGateway(gateway, EffectiveIssuer(annotations), EffectiveZone(annotations)).Fail?
  {
    MissingIssuerRejects(gateway, EffectiveIssuer(annotations), EffectiveZone(annotations));
  }

  // ----- Finalizers -----

  predicate HasFinalizer(route: Route) {
    HttprouteFinalizerName in route.finalizers
  }

  /** Appends `f` unless it is already present. */
  function AddFinalizer(finalizers: seq<string>, f: string): (added: seq<string>)
    ensures f in added
    ensures forall x | x != f :: multiset(added)[x] == multiset(finalizers)[x]
    ensures f !in finalizers ==> multiset(added)[f] == 1
    ensures f in finalizers ==> added == finalizers
  {
    if f in finalizers then finalizers else finalizers + [f]
  }

  /** Removes every occurrence of `f`, keeping the order of the others. */
  function RemoveFinalizer(finalizers: seq<string>, f: string): (kept: seq<string>)
    ensures forall x :: x in kept <==> x in finalizers && x != f
    ensures |kept| <= |finalizers|
    ensures f !in finalizers ==> kept == finalizers
  {
    if finalizers == [] then []
    else if finalizers[0] == f then RemoveFinalizer(finalizers[1..], f)
    else [finalizers[0]] + RemoveFinalizer(finalizers[1..], f)
  }

  /** Every other entry keeps its number of occurrences; `f` has none left. */
  lemma {:induction false} RemoveFinalizerCounts(finalizers: seq<string>, f: string)
    ensures var kept := RemoveFinalizer(finalizers, f);
            && multiset(kept)[f] == 0
            && forall x | x != f :: multiset(kept)[x] == multiset(finalizers)[x]
    decreases |finalizers|
  {
    if finalizers != [] {
      assert finalizers == [finalizers[0]] + finalizers[1..];
      RemoveFinalizerCounts(finalizers[1..], f);
    }
  }

  /** Two entries left by the removal appear in the same order in the original list. */
  lemma {:induction false} RemoveFinalizerKeepsOrder(finalizers: seq<string>, f: string, i: int, j: int)
    requires 0 <= i < j < |RemoveFinalizer(finalizers, f)|
    ensures var kept := RemoveFinalizer(finalizers, f);
            exists i', j' :: 0 <= i' < j' < |finalizers| && finalizers[i'] == kept[i] && finalizers[j'] == kept[j]
    decreases |finalizers|
  {
    var kept := RemoveFinalizer(finalizers, f);
    var rest := RemoveFinalizer(finalizers[1..], f);
    if finalizers[0] == f {
      RemoveFinalizerKeepsOrder(finalizers[1..], f, i, j);
      var i', j' :| 0 <= i' < j' < |finalizers[1..]| && finalizers[1..][i'] == rest[i] && finalizers[1..][j'] == rest[j];
      assert finalizers[i' + 1] == kept[i] && finalizers[j' + 1] == kept[j];
    } else if i == 0 {
      assert rest[j - 1] in finalizers[1..];
      var j' :| 0 <= j' < |finalizers[1..]| && finalizers[1..][j'] == rest[j - 1];
      assert finalizers[0] == kept[0] && finalizers[j' + 1] == kept[j];
    } else {
      RemoveFinalizerKeepsOrder(finalizers[1..], f, i - 1, j - 1);
      var i', j' :| 0 <= i' < j' < |finalizers[1..]| && finalizers[1..][i'] == rest[i - 1] && finalizers[1..][j'] == rest[j - 1];
      assert finalizers[i' + 1] == kept[i] && finalizers[j' + 1] == kept[j];
    }
  }

  /** Removal distributes over concatenation. */
  lemma {:induction false} RemoveFinalizerAppend(a: seq<string>, b: seq<string>, f: string)
    ensures RemoveFinalizer(a + b, f) == RemoveFinalizer(a, f) + RemoveFinalizer(b, f)
    decreases |a|
  {
    if a != [] {
      assert (a + b)[1..] == a[1..] + b;
      RemoveFinalizerAppend(a[1..], b, f);
    } else {
      assert a + b == b;
    }
  }

  /** Removing the finalizer undoes adding it; a list that lacked it comes back unchanged. */
  lemma RemoveUndoesAdd(finalizers: seq<string>, f: string)
    ensures RemoveFinalizer(AddFinalizer(finalizers, f), f) == RemoveFinalizer(finalizers, f)
    ensures f !in finalizers ==> RemoveFinalizer(AddFinalizer(finalizers, f), f) == finalizers
  {
    if f !in finalizers {
      RemoveFinalizerAppend(finalizers, [f], f);
      assert RemoveFinalizer([f], f) == [];
    }
  }

  /** The routes after the finalizer was added to route `k` (unchanged when absent or already there). */
  function WithFinalizer(routes: map<Key, Route>, k: Key): map<Key, Route> {
    if k in routes && !HasFinalizer(routes[k])
    then routes[k := routes[k].(finalizers := AddFinalizer(routes[k].finalizers, HttprouteFinalizerName))]
    else routes
  }

  /** The routes after the finalizer was removed from route `k`; a deleting route left without finalizers is gone. */
  function WithoutFinalizer(routes: map<Key, Route>, k: Key): map<Key, Route> {
    if k in routes && RouteKey(routes[k]) == k && HasFinalizer(routes[k])
    then RoutesAfterUpdate(routes, routes[k].(finalizers := RemoveFinalizer(routes[k].finalizers, HttprouteFinalizerName)))
    else routes
  }

  /** After the add the route holds the finalizer exactly once, and nothing else changed. */
  lemma FinalizerAddedOnce(routes: map<Key, Route>, k: Key)
    requires k in routes && !HasFinalizer(routes[k])
    ensures k in WithFinalizer(routes, k)
    ensures multiset(WithFinalizer(routes, k)[k].finalizers)[HttprouteFinalizerName] == 1
    ensures WithFinalizer(routes, k)[k].annotations == routes[k].annotations
    ensures forall k' | k' != k :: k' in routes <==> k' in WithFinalizer(routes, k)
  {
  }

  /** After the removal the route, if still stored, no longer holds the finalizer. */
  lemma FinalizerRemoved(routes: map<Key, Route>, k: Key)
    requires k in routes && RouteKey(routes[k]) == k && HasFinalizer(routes[k])
    ensures k in WithoutFinalizer(routes, k) ==> !HasFinalizer(WithoutFinalizer(routes, k)[k])
    ensures k !in WithoutFinalizer(routes, k) <==> routes[k].deleting && RemoveFinalizer(routes[k].finalizers, HttprouteFinalizerName) == []
  {
  }

  /** On a live route, releasing the finalizer after adding it restores the stored routes. */
  lemma ReleaseUndoesAdd(routes: map<Key, Route>, k: Key)
    requires k in routes && RouteKey(routes[k]) == k
    requires !HasFinalizer(routes[k]) && !routes[k].deleting
    ensures WithoutFinalizer(WithFinalizer(routes, k), k) == routes
  {
    var route := routes[k];
    var withIt := route.(finalizers := AddFinalizer(route.finalizers, HttprouteFinalizerName));
    RemoveUndoesAdd(route.finalizers, HttprouteFinalizerName);
    assert withIt.(finalizers := RemoveFinalizer(withIt.finalizers, HttprouteFinalizerName)) == route;
    assert WithFinalizer(routes, k) == routes[k := withIt];
    assert RoutesAfterUpdate(routes[k := withIt], route) == routes[k := route];
  }

  /**
   * Retry-on-conflict loop that adds the finalizer: re-reads the route, stops
   * when the finalizer is already there, and retries only on a conflict.
   */
  method AddFinalizerWithRetry(r: Store, req: Key) returns (o: Outcome)
    requires r.Valid()
    modifies r
    ensures r.Valid() && r.gateways == old(r.gateways) && old(r.issued) <= r.issued
    ensures |r.issued| - |old(r.issued)| <= RetrySteps
    ensures forall i | |old(r.issued)| <= i < |r.issued| :: r.issued[i].UpdateRoute? && r.issued[i].Target() == req
    ensures r.routes == old(r.routes) || r.routes == WithFinalizer(old(r.routes), req)
    ensures o.Ok? ==> r.routes == WithFinalizer(old(r.routes), req)
    ensures req !in old(r.routes) ==> o == Fail(NotFound)
    ensures o.Fail? ==> !o.error.BadRequest?
  {
    var attempt := 0;
    while attempt < RetrySteps
      invariant 0 <= attempt <= RetrySteps
      invariant r.Valid() && r.gateways == old(r.gateways) && r.routes == old(r.routes)
      invariant old(r.issued) <= r.issued && |r.issued| - |old(r.issued)| == attempt
      invariant forall i | |old(r.issued)| <= i < |r.issued| :: r.issued[i].UpdateRoute? && r.issued[i].Target() == req
      invariant req !in old(r.routes) ==> attempt == 0
    {
      var latest := r.GetRoute(req);
      if latest.Failure? {
        return Fail(latest.error);
      }
      var route := latest.value;
      if HasFinalizer(route) {
        return Ok;
      }
      o := r.UpdateRoute(route.(finalizers := AddFinalizer(route.finalizers, HttprouteFinalizerName)));
      if o.Ok? || o.error != Conflict {
        return o;
      }
      attempt := attempt + 1;
    }
    return Fail(Conflict);
  }

  /**
   * Retry-on-conflict loop that removes the finalizer: a vanished route or a
   * finalizer already gone is success; only a conflict is retried.
   */
  method RemoveFinalizerWithRetry(r: Store, req: Key) returns (o: Outcome)
    requires r.Valid()
    modifies r
    ensures r.Valid() && r.gateways == old(r.gateways) && old(r.issued) <= r.issued
    ensures |r.issued| - |old(r.issued)| <= RetrySteps
    ensures forall i | |old(r.issued)| <= i < |r.issued| :: r.issued[i].UpdateRoute? && r.issued[i].Target() == req
    ensures r.routes == old(r.routes) || r.routes == WithoutFinalizer(old(r.routes), req)
    ensures o.Ok? || o.error == NotFound ==> r.routes == WithoutFinalizer(old(r.routes), req)
    ensures o.Fail? ==> r.routes == old(r.routes) && !o.error.BadRequest?
  {
    var attempt := 0;
    while attempt < RetrySteps
      invariant 0 <= attempt <= RetrySteps
      invariant r.Valid() && r.gateways == old(r.gateways) && r.routes == old(r.routes)
      invariant old(r.issued) <= r.issued && |r.issued| - |old(r.issued)| == attempt
      invariant forall i | |old(r.issued)| <= i < |r.issued| :: r.issued[i].UpdateRoute? && r.issued[i].Target() == req
    {
      var latest := r.GetRoute(req);
      if latest.Failure? {
        if latest.error == NotFound {
          return Ok;
        }
        return Fail(latest.error);
      }
      var route := latest.value;
      if !HasFinalizer(route) {
        return Ok;
      }
      o := r.UpdateRoute(route.(finalizers := RemoveFinalizer(route.finalizers, HttprouteFinalizerName)));
      if o.Ok? || o.error != Conflict {
        return o;
      }
      attempt := attempt + 1;
    }
    return Fail(Conflict);
  }

  // ----- Gateway syncs outside the ensure path -----

  /**
   * Syncs the gateway the route referenced before: parses the reference,
   * leaves an invalid reference or an absent gateway alone without error,
   * otherwise deletes or patches it. No issuer or zone check.
   */
  method UpdateOldGateway(r: Store, gatewayRef: string) returns (o: Outcome)
    requires r.Valid()
    modifies r
    ensures r.Valid() && r.routes == old(r.routes) && old(r.issued) <= r.issued
    ensures !IsValidRef(gatewayRef) ==> o == Ok && r.issued == old(r.issued) && r.gateways == old(r.gateways)
    ensures IsValidRef(gatewayRef) ==>
              GatewaySyncEffect(RefKey(gatewayRef),
                HostnamesFor(old(r.routes).Values, RefKey(gatewayRef).name, RefKey(gatewayRef).namespace),
                o, old(r.gateways), r.gateways, r.issued[|old(r.issued)|..])
  {
    var gatewayNamespace, gatewayName := ParseGatewayRef(gatewayRef);
    if gatewayNamespace == "" || gatewayName == "" {
      return Ok;
    }
    var gatewayKey := Key(gatewayNamespace, gatewayName);
    ghost var hosts := HostnamesFor(old(r.routes).Values, gatewayName, gatewayNamespace);

    var got := r.GetGateway(gatewayKey);
    if got.Failure? {
      assert r.issued[|old(r.issued)|..] == [];
      if got.error == NotFound {
        return Ok;
      }
      return Fail(got.error);
    }
    var gateway := got.value;

    var collected := CollectListenersForGateway(r, gatewayName, gatewayNamespace);
    if collected.Failure? {
      assert r.issued[|old(r.issued)|..] == [];
      o := Fail(collected.error);
    } else if |collected.value| == 0 {
      o := r.DeleteGateway(GatewayKey(gateway));
      assert r.issued[|old(r.issued)|..] == [DeleteGateway(GatewayKey(gateway))];
    } else {
      o := r.ApplyGateway(gatewayKey, gateway.className, collected.value);
      assert r.issued[|old(r.issued)|..] == [ApplyGateway(gatewayKey, gateway.className, collected.value)];
    }
    UpdateEffectIsSyncEffect(gatewayKey, hosts, o, old(r.gateways), r.gateways, r.issued[|old(r.issued)|..]);
  }

  /** Recomputes the gateway a deleting route names; an absent gateway is left alone without error. No issuer or zone check. */
  method HandleHTTPRouteDeletion(r: Store, gatewayName: string, gatewayNamespace: string) returns (o: Outcome)
    requires r.Valid()
    modifies r
    ensures r.Valid() && r.routes == old(r.routes) && old(r.issued) <= r.issued
    ensures GatewaySyncEffect(Key(gatewayNamespace, gatewayName),
              HostnamesFor(old(r.routes).Values, gatewayName, gatewayNamespace),
              o, old(r.gateways), r.gateways, r.issued[|old(r.issued)|..])
  {
    var gatewayKey := Key(gatewayNamespace, gatewayName);
    var got := r.GetGateway(gatewayKey);
    if got.Failure? {
      assert r.issued[|old(r.issued)|..] == [];
      if got.error == NotFound {
        return Ok;
      }
      return Fail(got.error);
    }
    o := UpdateGatewayListeners(r, got.value, gatewayNamespace);
    UpdateEffectIsSyncEffect(gatewayKey, HostnamesFor(old(r.routes).Values, gatewayName, gatewayNamespace),
      o, old(r.gateways), r.gateways, r.issued[|old(r.issued)|..]);
  }

  // ----- Reconcile -----

  /** Nothing was sent and nothing changed. */
  ghost predicate Untouched(r0: map<Key, Route>, g0: map<Key, Gateway>, r1: map<Key, Route>, g1: map<Key, Gateway>, ws: seq<Request>) {
    ws == [] && r1 == r0 && g1 == g0
  }

  /**
   * A deleting route holding the finalizer: only its target gateway is
   * written, and every such write precedes the finalizer updates; the
   * finalizer is released only once the gateway is recomputed without the
   * route; a failure leaves the route as it was.
   */
  ghost predicate DeletionEffect(req: Key, route: Route, o: Outcome,
    r0: map<Key, Route>, g0: map<Key, Gateway>, r1: map<Key, Route>, g1: map<Key, Gateway>, ws: seq<Request>)
    requires route.parentRefs != []
  {
    var target := TargetGateway(route);
    var hosts := HostnamesFor(r0.Values, target.name, target.namespace);
    && OnlyChangedAt({target}, g0, g1)
    && (forall i | 0 <= i < |ws| :: ws[i].UpdateRoute? || ws[i].ApplyGateway? || ws[i].DeleteGateway?)
    && (forall i | 0 <= i < |ws| :: ws[i].Target() == if ws[i].UpdateRoute? then req else target)
    && (forall i, j | 0 <= i < j < |ws| :: ws[i].UpdateRoute? ==> ws[j].UpdateRoute?)
    && (r1 == r0 || r1 == WithoutFinalizer(r0, req))
    && (r1 != r0 ==> Recomputed(target, hosts, g0, g1))
    && (o.Ok? ==> r1 == WithoutFinalizer(r0, req) && Recomputed(target, hosts, g0, g1))
    && (o.Fail? ==> r1 == r0 && !o.error.BadRequest?)
  }

  /** The finalizer-add step: the route gains the finalizer and the run stops; the target gateway and the annotations are not touched. */
  ghost predicate FinalizerAddEffect(req: Key, target: Key, o: Outcome,
    r0: map<Key, Route>, g0: map<Key, Gateway>, r1: map<Key, Route>, g1: map<Key, Gateway>, ws: seq<Request>)
  {
    && SameAt(target, g0, g1)
    && (forall i | 0 <= i < |ws| :: !ws[i].ApplyRouteAnnotations? && !ws[i].CreateGateway?)
    && (forall i | 0 <= i < |ws| && ws[i].IsGatewayWrite() :: ws[i].Target() != target)
    && (r1 == r0 || r1 == WithFinalizer(r0, req))
    && (o.Ok? ==> r1 == WithFinalizer(r0, req))
    && (o.Fail? ==> !o.error.BadRequest?)
  }

  /**
   * Annotation bookkeeping then ensure-gateway: the annotation patch is sent
   * exactly when bookkeeping changes something, the target gateway is written
   * only after that patch succeeded, and the gateway ends as ensure-gateway
   * leaves it for the route's effective issuer and zone. A rejected request
   * is the target gateway's failed conflict check.
   */
  ghost predicate ConfiguredEffect(req: Key, route: Route, target: Key, o: Outcome,
    r0: map<Key, Route>, g0: map<Key, Gateway>, r1: map<Key, Route>, g1: map<Key, Gateway>, ws: seq<Request>)
    requires req in r0
  {
    var synced := SyncedAnnotations(route.annotations, GatewayRef(target));
    var needsUpdate := AnnotationsNeedUpdate(route.annotations, GatewayRef(target));
    var zone := EffectiveZone(route.annotations);
    var issuer := EffectiveIssuer(route.annotations);
    var hosts := HostnamesFor(r1.Values, target.name, target.namespace);
    && (forall i | 0 <= i < |ws| && ws[i].ApplyRouteAnnotations? :: ws[i] == ApplyRouteAnnotations(req, synced))
    && (needsUpdate <==> exists i :: 0 <= i < |ws| && ws[i].ApplyRouteAnnotations?)
    && (r1 == r0 || (needsUpdate && r1 == RoutesAfterAnnotations(r0, req, synced)))
    && (forall i | 0 <= i < |ws| && ws[i].IsGatewayWrite() && ws[i].Target() == target ::
          needsUpdate ==> r1 == RoutesAfterAnnotations(r0, req, synced))
    && (o.Ok? && needsUpdate ==> r1 == RoutesAfterAnnotations(r0, req, synced))
    && (o.Fail? ==> SameAt(target, g0, g1))
    && (o.Fail? && o.error.BadRequest? ==> target in g0 && o == ValidateGateway(g0[target], issuer, zone))
    && (target !in g0 && o.Ok? ==> target in g1 && IsNewGateway(g1[target], target, zone, issuer, hosts))
    && (target in g0 && ValidateGateway(g0[target], issuer, zone).Fail? ==>
          o.Fail? && forall i | 0 <= i < |ws| && ws[i].IsGatewayWrite() :: ws[i].Target() != target)
    && (target in g0 && ValidateGateway(g0[target], issuer, zone).Ok? && o.Ok? ==> Recomputed(target, hosts, g0, g1))
  }

  /**
   * The sync of the previous gateway alone: only that gateway is written (a
   * patch or a delete), it is not the target, and it ends unchanged or
   * recomputed over the routes as they were.
   */
  ghost predicate PreviousSynced(route: Route, target: Key,
    r0: map<Key, Route>, g0: map<Key, Gateway>, g1: map<Key, Gateway>, ws: seq<Request>)
  {
    var previous := MigratedFrom(route, target);
    && OnlyChangedAt(previous, g0, g1)
    && (forall i | 0 <= i < |ws| :: (ws[i].ApplyGateway? || ws[i].DeleteGateway?) && ws[i].Target() in previous)
    && (forall k | k in previous ::
          k != target && (SameAt(k, g0, g1) || Recomputed(k, HostnamesFor(r0.Values, k.name, k.namespace), g0, g1)))
  }

  /**
   * Over a whole live-route run: only the target gateway and, when migrating,
   * the previous gateway can change, and the previous one ends unchanged or
   * recomputed.
   */
  ghost predicate MigrationEffect(route: Route, target: Key,
    r0: map<Key, Route>, g0: map<Key, Gateway>, g1: map<Key, Gateway>, ws: seq<Request>)
  {
    var previous := MigratedFrom(route, target);
    && OnlyChangedAt({target} + previous, g0, g1)
    && (forall i | 0 <= i < |ws| && ws[i].IsGatewayWrite() :: ws[i].Target() in {target} + previous)
    && (forall k | k in previous ::
          k != target && (SameAt(k, g0, g1) || Recomputed(k, HostnamesFor(r0.Values, k.name, k.namespace), g0, g1)))
  }

  /** A live route: the migration bound, then either the finalizer-add step or bookkeeping and ensure-gateway. */
  ghost predicate SteadyEffect(req: Key, route: Route, o: Outcome,
    r0: map<Key, Route>, g0: map<Key, Gateway>, r1: map<Key, Route>, g1: map<Key, Gateway>, ws: seq<Request>)
    requires req in r0 && route.parentRefs != []
  {
    var target := TargetGateway(route);
    && MigrationEffect(route, target, r0, g0, g1, ws)
    && if HasFinalizer(route) then ConfiguredEffect(req, route, target, o, r0, g0, r1, g1, ws)
       else FinalizerAddEffect(req, target, o, r0, g0, r1, g1, ws)
  }

  /** What reconciling the loaded route `route` (stored under `req`) leaves behind, branch by branch. */
  ghost predicate ReconcileEffect(req: Key, route: Route, o: Outcome,
    r0: map<Key, Route>, g0: map<Key, Gateway>, r1: map<Key, Route>, g1: map<Key, Gateway>, ws: seq<Request>)
    requires req in r0
  {
    if !IsEnabled(route) || route.parentRefs == [] then
      o == Ok && Untouched(r0, g0, r1, g1, ws)
    else if route.deleting then
      if HasFinalizer(route) then DeletionEffect(req, route, o, r0, g0, r1, g1, ws)
      else o == Ok && Untouched(r0, g0, r1, g1, ws)
    else
      SteadyEffect(req, route, o, r0, g0, r1, g1, ws)
  }

  /** The requests sent by two consecutive steps are those of the first followed by those of the second. */
  lemma SentInSteps(i0: seq<Request>, i1: seq<Request>, i2: seq<Request>)
    requires i0 <= i1 <= i2
    ensures i2[|i0|..] == i1[|i0|..] + i2[|i1|..]
  {
  }

  /** Gateways changed only at `a`, then only at `b`, changed only at `a + b`. */
  lemma OnlyChangedAtCompose(a: set<Key>, b: set<Key>, g0: map<Key, Gateway>, g1: map<Key, Gateway>, g2: map<Key, Gateway>)
    requires OnlyChangedAt(a, g0, g1) && OnlyChangedAt(b, g1, g2)
    ensures OnlyChangedAt(a + b, g0, g2)
  {
    forall k | k !in a + b ensures SameAt(k, g0, g2) {
      assert SameAt(k, g0, g1) && SameAt(k, g1, g2);
    }
  }

  /**
   * The deletion branch put together: a sync of the target gateway, followed
   * (only if it succeeded) by the finalizer removal.
   */
  lemma DeletionEffectOf(req: Key, route: Route, r0: map<Key, Route>, g0: map<Key, Gateway>,
    o1: Outcome, g1: map<Key, Gateway>, ws1: seq<Request>, o2: Outcome, r2: map<Key, Route>, ws2: seq<Request>)
    requires route.parentRefs != []
    requires var t := TargetGateway(route);
             && (t in g0 ==> GatewayKey(g0[t]) == t)
             && GatewaySyncEffect(t, HostnamesFor(r0.Values, t.name, t.namespace), o1, g0, g1, ws1)
    requires o1.Fail? ==> ws2 == [] && r2 == r0
    requires o2.Fail? ==> !o2.error.BadRequest?
    requires forall i | 0 <= i < |ws2| :: ws2[i].UpdateRoute? && ws2[i].Target() == req
    requires r2 == r0 || r2 == WithoutFinalizer(r0, req)
    requires o1.Ok? && (o2.Ok? || o2.error == NotFound) ==> r2 == WithoutFinalizer(r0, req)
    requires o2.Fail? ==> r2 == r0
    ensures var o := if o1.Fail? then o1 else if o2.Fail? && o2.error != NotFound then o2 else Ok;
            DeletionEffect(req, route, o, r0, g0, r2, g1, ws1 + ws2)
  {
    var ws := ws1 + ws2;
    var t := TargetGateway(route);
    forall i | 0 <= i < |ws|
      ensures ws[i].UpdateRoute? || ws[i].ApplyGateway? || ws[i].DeleteGateway?
      ensures ws[i].Target() == if ws[i].UpdateRoute? then req else t
      ensures i < |ws1| <==> !ws[i].UpdateRoute?
    {
      if i >= |ws1| {
        assert ws[i] == ws2[i - |ws1|];
      }
    }
  }

  /**
   * Bookkeeping then ensure-gateway put together, for the case where the
   * annotation patch was not needed or succeeded.
   */
  lemma ConfiguredEffectOf(req: Key, route: Route, target: Key, r0: map<Key, Route>, g0: map<Key, Gateway>,
    r1: map<Key, Route>, ws1: seq<Request>, o: Outcome, g2: map<Key, Gateway>, ws2: seq<Request>)
    requires req in r0
    requires target in g0 ==> GatewayKey(g0[target]) == target
    requires var synced := SyncedAnnotations(route.annotations, GatewayRef(target));
             if AnnotationsNeedUpdate(route.annotations, GatewayRef(target))
             then ws1 == [ApplyRouteAnnotations(req, synced)] && r1 == RoutesAfterAnnotations(r0, req, synced)
             else ws1 == [] && r1 == r0
    requires EnsureEffect(target, EffectiveZone(route.annotations), EffectiveIssuer(route.annotations),
               HostnamesFor(r1.Values, target.name, target.namespace), o, g0, g2, ws2)
    ensures OnlyChangedAt({target}, g0, g2)
    ensures forall i | 0 <= i < |ws1 + ws2| && (ws1 + ws2)[i].IsGatewayWrite() :: (ws1 + ws2)[i].Target() == target
    ensures ConfiguredEffect(req, route, target, o, r0, g0, r1, g2, ws1 + ws2)
  {
    var ws := ws1 + ws2;
    assert forall i | 0 <= i < |ws2| :: ws2[i].IsGatewayWrite() && ws2[i].Target() == target;
    forall i | 0 <= i < |ws|
      ensures ws[i].ApplyRouteAnnotations? <==> i < |ws1|
      ensures ws[i].IsGatewayWrite() ==> ws[i].Target() == target
    {
      if i >= |ws1| {
        assert ws[i] == ws2[i - |ws1|];
      }
    }
    if AnnotationsNeedUpdate(route.annotations, GatewayRef(target)) {
      assert ws[0].ApplyRouteAnnotations?;
    }
  }

  /** A failed annotation patch ends the run with the gateways untouched. */
  lemma PatchFailedEffect(req: Key, route: Route, target: Key, r0: map<Key, Route>, g0: map<Key, Gateway>, o: Outcome)
    requires req in r0 && o.Fail?
    requires AnnotationsNeedUpdate(route.annotations, GatewayRef(target))
    requires !o.error.BadRequest?
    ensures ConfiguredEffect(req, route, target, o, r0, g0, r0, g0,
              [ApplyRouteAnnotations(req, SyncedAnnotations(route.annotations, GatewayRef(target)))])
  {
    var ws := [ApplyRouteAnnotations(req, SyncedAnnotations(route.annotations, GatewayRef(target)))];
    assert ws[0].ApplyRouteAnnotations?;
  }

  /** The previous gateway's sync followed by a step that writes only the target keeps the migration bound. */
  lemma MigrationEffectOf(route: Route, target: Key, r0: map<Key, Route>, g0: map<Key, Gateway>,
    g1: map<Key, Gateway>, ws1: seq<Request>, g2: map<Key, Gateway>, ws2: seq<Request>)
    requires PreviousSynced(route, target, r0, g0, g1, ws1)
    requires OnlyChangedAt({target}, g1, g2)
    requires forall i | 0 <= i < |ws2| && ws2[i].IsGatewayWrite() :: ws2[i].Target() == target
    ensures MigrationEffect(route, target, r0, g0, g2, ws1 + ws2)
  {
    var previous := MigratedFrom(route, target);
    var ws := ws1 + ws2;
    OnlyChangedAtCompose(previous, {target}, g0, g1, g2);
    forall k | k in previous ensures SameAt(k, g1, g2) {
    }
    forall i | 0 <= i < |ws| && ws[i].IsGatewayWrite() ensures ws[i].Target() in {target} + previous {
      if i >= |ws1| {
        assert ws[i] == ws2[i - |ws1|];
      }
    }
  }

  /** Prefixing the previous gateway's writes keeps the bookkeeping and ensure-gateway effect on the target. */
  lemma ConfiguredAfterMigration(req: Key, route: Route, target: Key, o: Outcome, r0: map<Key, Route>,
    g0: map<Key, Gateway>, g1: map<Key, Gateway>, ws1: seq<Request>, r2: map<Key, Route>, g2: map<Key, Gateway>, ws2: seq<Request>)
    requires req in r0
    requires SameAt(target, g0, g1)
    requires forall i | 0 <= i < |ws1| :: (ws1[i].ApplyGateway? || ws1[i].DeleteGateway?) && ws1[i].Target() != target
    requires ConfiguredEffect(req, route, target, o, r0, g1, r2, g2, ws2)
    ensures ConfiguredEffect(req, route, target, o, r0, g0, r2, g2, ws1 + ws2)
  {
    var ws := ws1 + ws2;
    forall i | 0 <= i < |ws|
      ensures ws[i].ApplyRouteAnnotations? ==> i >= |ws1| && ws[i] == ws2[i - |ws1|]
      ensures ws[i].IsGatewayWrite() && ws[i].Target() == target ==> i >= |ws1| && ws[i] == ws2[i - |ws1|]
    {
      if i >= |ws1| {
        assert ws[i] == ws2[i - |ws1|];
      }
    }
    if AnnotationsNeedUpdate(route.annotations, GatewayRef(target)) {
      var j :| 0 <= j < |ws2| && ws2[j].ApplyRouteAnnotations?;
      assert ws[|ws1| + j] == ws2[j];
    }
  }

  /** Prefixing the previous gateway's writes keeps the finalizer-add effect. */
  lemma FinalizerAddAfterMigration(req: Key, target: Key, o: Outcome, r0: map<Key, Route>,
    g0: map<Key, Gateway>, g1: map<Key, Gateway>, ws1: seq<Request>, r2: map<Key, Route>, ws2: seq<Request>)
    requires SameAt(target, g0, g1)
    requires forall i | 0 <= i < |ws1| :: (ws1[i].ApplyGateway? || ws1[i].DeleteGateway?) && ws1[i].Target() != target
    requires forall i | 0 <= i < |ws2| :: ws2[i].UpdateRoute?
    requires r2 == r0 || r2 == WithFinalizer(r0, req)
    requires o.Ok? ==> r2 == WithFinalizer(r0, req)
    requires o.Fail? ==> !o.error.BadRequest?
    ensures FinalizerAddEffect(req, target, o, r0, g0, r2, g1, ws1 + ws2)
  {
    var ws := ws1 + ws2;
    forall i | 0 <= i < |ws|
      ensures ws[i].UpdateRoute? || ((ws[i].ApplyGateway? || ws[i].DeleteGateway?) && ws[i].Target() != target)
    {
      if i >= |ws1| {
        assert ws[i] == ws2[i - |ws1|];
      }
    }
  }

  /**
   * The deletion branch: recompute the target gateway without the route, and
   * only then release the finalizer; a route already gone counts as released.
   */
  method ReconcileDeletion(r: Store, req: Key, httpRoute: Route, gatewayName: string, gatewayNamespace: string)
    returns (o: Outcome)
    requires r.Valid() && req in r.routes && r.routes[req] == httpRoute
    requires httpRoute.parentRefs != [] && TargetGateway(httpRoute) == Key(gatewayNamespace, gatewayName)
    modifies r
    ensures r.Valid() && old(r.issued) <= r.issued
    ensures DeletionEffect(req, httpRoute, o, old(r.routes), old(r.gateways), r.routes, r.gateways, r.issued[|old(r.issued)|..])
  {
    ghost var r0, g0, i0 := r.routes, r.gateways, r.issued;
    o := HandleHTTPRouteDeletion(r, gatewayName, gatewayNamespace);
    ghost var o1, g1, i1 := o, r.gateways, r.issued;
    if o.Fail? {
      DeletionEffectOf(req, httpRoute, r0, g0, o1, g1, i1[|i0|..], o1, r0, []);
      assert i1[|i0|..] + [] == r.issued[|i0|..];
      return o;
    }
    o := RemoveFinalizerWithRetry(r, req);
    DeletionEffectOf(req, httpRoute, r0, g0, o1, g1, i1[|i0|..], o, r.routes, r.issued[|i1|..]);
    SentInSteps(i0, i1, r.issued);
    if o.Fail? && o.error != NotFound {
      return o;
    }
    o := Ok;
  }

  /**
   * Annotation bookkeeping on a route that holds the finalizer, then the
   * create-or-update of its target gateway with the effective zone and issuer.
   */
  method ConfigureRoute(r: Store, req: Key, httpRoute: Route, gatewayName: string, gatewayNamespace: string)
    returns (o: Outcome)
    requires r.Valid() && req in r.routes && r.routes[req] == httpRoute
    modifies r
    ensures r.Valid() && old(r.issued) <= r.issued
    ensures var target := Key(gatewayNamespace, gatewayName);
            var ws := r.issued[|old(r.issued)|..];
            && OnlyChangedAt({target}, old(r.gateways), r.gateways)
            && (forall i | 0 <= i < |ws| && ws[i].IsGatewayWrite() :: ws[i].Target() == target)
            && ConfiguredEffect(req, httpRoute, target, o, old(r.routes), old(r.gateways), r.routes, r.gateways, ws)
  {
    ghost var target := Key(gatewayNamespace, gatewayName);
    ghost var r0, g0, i0 := r.routes, r.gateways, r.issued;
    var currentGatewayRef := gatewayNamespace + "/" + gatewayName;
    var annotations, needsUpdate := SyncRouteAnnotations(httpRoute.annotations, currentGatewayRef);

    if needsUpdate {
      o := r.ApplyRouteAnnotations(req, annotations);
      if o.Fail? {
        PatchFailedEffect(req, httpRoute, target, r0, g0, o);
        assert r.issued[|i0|..] == [ApplyRouteAnnotations(req, annotations)];
        return o;
      }
    }
    ghost var r1, i1 := r.routes, r.issued;

    var ipamZone := Lookup(annotations, AnnotationIPAMZone);
    if ipamZone == "" {
      ipamZone := DefaultIPAMZone;
    }
    var clusterIssuer := Lookup(annotations, AnnotationClusterIssuer);
    if clusterIssuer == "" {
      clusterIssuer := DefaultClusterIssuer;
    }
    SyncKeepsUserAnnotations(httpRoute.annotations, currentGatewayRef, AnnotationIPAMZone);
    SyncKeepsUserAnnotations(httpRoute.annotations, currentGatewayRef, AnnotationClusterIssuer);

    o := EnsureGateway(r, gatewayName, gatewayNamespace, ipamZone, clusterIssuer);
    ConfiguredEffectOf(req, httpRoute, target, r0, g0, r1, i1[|i0|..], o, r.gateways, r.issued[|i1|..]);
    SentInSteps(i0, i1, r.issued);
  }

  /** The old-gateway update, run exactly when migrating, is the previous gateway's sync. */
  lemma PreviousSyncedOf(route: Route, target: Key, r0: map<Key, Route>, g0: map<Key, Gateway>,
    o: Outcome, g1: map<Key, Gateway>, ws: seq<Request>)
    requires var previous := Lookup(route.annotations, PreviousGatewayAnnotationKey);
             if NeedsMigration(route, target) && IsValidRef(previous) then
               var k := RefKey(previous);
               && (k in g0 ==> GatewayKey(g0[k]) == k)
               && GatewaySyncEffect(k, HostnamesFor(r0.Values, k.name, k.namespace), o, g0, g1, ws)
             else ws == [] && g1 == g0
    ensures PreviousSynced(route, target, r0, g0, g1, ws)
  {
    var previous := Lookup(route.annotations, PreviousGatewayAnnotationKey);
    if NeedsMigration(route, target) && IsValidRef(previous) {
      OtherRefOtherGateway(previous, target);
    }
  }

  /** Syncs the gateway named by the previous-gateway annotation when it differs from the current one. */
  method SyncPreviousGateway(r: Store, httpRoute: Route, gatewayName: string, gatewayNamespace: string)
    requires r.Valid()
    modifies r
    ensures r.Valid() && r.routes == old(r.routes) && old(r.issued) <= r.issued
    ensures PreviousSynced(httpRoute, Key(gatewayNamespace, gatewayName), old(r.routes), old(r.gateways), r.gateways,
              r.issued[|old(r.issued)|..])
  {
    ghost var target := Key(gatewayNamespace, gatewayName);
    var currentGatewayRef := gatewayNamespace + "/" + gatewayName;
    var previousGatewayRef := Lookup(httpRoute.annotations, PreviousGatewayAnnotationKey);
    var o := Ok;
    if previousGatewayRef != "" && previousGatewayRef != currentGatewayRef {
      o := UpdateOldGateway(r, previousGatewayRef);
    } else {
      assert r.issued[|old(r.issued)|..] == [];
    }
    PreviousSyncedOf(httpRoute, target, old(r.routes), old(r.gateways), o, r.gateways, r.issued[|old(r.issued)|..]);
  }

  /**
   * The live-route branch: sync the previous gateway when the route moved,
   * then either add the finalizer and stop, or do the bookkeeping and the
   * ensure-gateway step.
   */
  method ReconcileLive(r: Store, req: Key, httpRoute: Route, gatewayName: string, gatewayNamespace: string)
    returns (o: Outcome)
    requires r.Valid() && req in r.routes && r.routes[req] == httpRoute
    requires httpRoute.parentRefs != [] && TargetGateway(httpRoute) == Key(gatewayNamespace, gatewayName)
    modifies r
    ensures r.Valid() && old(r.issued) <= r.issued
    ensures SteadyEffect(req, httpRoute, o, old(r.routes), old(r.gateways), r.routes, r.gateways, r.issued[|old(r.issued)|..])
  {
    ghost var target := Key(gatewayNamespace, gatewayName);
    ghost var r0, g0, i0 := r.routes, r.gateways, r.issued;
    SyncPreviousGateway(r, httpRoute, gatewayName, gatewayNamespace);
    ghost var g1, i1 := r.gateways, r.issued;

    if HttprouteFinalizerName !in httpRoute.finalizers {
      o := AddFinalizerWithRetry(r, req);
      if o.Fail? {
        FinalizerAddAfterMigration(req, target, o, r0, g0, g1, i1[|i0|..], r.routes, r.issued[|i1|..]);
      } else {
        o := Ok;
        FinalizerAddAfterMigration(req, target, o, r0, g0, g1, i1[|i0|..], r.routes, r.issued[|i1|..]);
      }
    } else {
      o := ConfigureRoute(r, req, httpRoute, gatewayName, gatewayNamespace);
      ConfiguredAfterMigration(req, httpRoute, target, o, r0, g0, g1, i1[|i0|..], r.routes, r.gateways, r.issued[|i1|..]);
    }
    MigrationEffectOf(httpRoute, target, r0, g0, g1, i1[|i0|..], r.gateways, r.issued[|i1|..]);
    SentInSteps(i0, i1, r.issued);
  }

  /**
   * Reconciles route `req`. A route that is gone, disabled or without parent
   * references is left alone; a failed read of it is returned.
   */
  method Reconcile(r: Store, req: Key) returns (o: Outcome)
    requires r.Valid()
    modifies r
    ensures r.Valid() && old(r.issued) <= r.issued
    ensures req !in old(r.routes) ==> o == Ok && Untouched(old(r.routes), old(r.gateways), r.routes, r.gateways, r.issued[|old(r.issued)|..])
    ensures req in old(r.routes) ==>
              || (o == Fail(Unavailable) && Untouched(old(r.routes), old(r.gateways), r.routes, r.gateways, r.issued[|old(r.issued)|..]))
              || ReconcileEffect(req, old(r.routes)[req], o, old(r.routes), old(r.gateways), r.routes, r.gateways, r.issued[|old(r.issued)|..])
  {
    var loaded := r.GetRoute(req);
    assert r.issued[|old(r.issued)|..] == [];
    if loaded.Failure? {
      if loaded.error == NotFound {
        return Ok;
      }
      return Fail(loaded.error);
    }
    var httpRoute := loaded.value;

    if Lookup(httpRoute.annotations, AnnotationUseHttprouteOperator) != "true" {
      return Ok;
    }
    if |httpRoute.parentRefs| == 0 {
      return Ok;
    }

    var gatewayName := httpRoute.parentRefs[0].name;
    var gatewayNamespace := httpRoute.namespace;
    if httpRoute.parentRefs[0].namespace.Some? {
      gatewayNamespace := httpRoute.parentRefs[0].namespace.value;
    }

    if httpRoute.deleting {
      if HttprouteFinalizerName !in httpRoute.finalizers {
        return Ok;
      }
      o := ReconcileDeletion(r, req, httpRoute, gatewayName, gatewayNamespace);
      return;
    }
    o := ReconcileLive(r, req, httpRoute, gatewayName, gatewayNamespace);
  }

  /**
   * A request is rejected only on the policy path: an enabled, live route
   * holding the finalizer whose target gateway fails the issuer or zone
   * check for the route's effective issuer and zone, as stored before the run.
   */
  lemma RejectionIsConflictCheck(req: Key, route: Route, o: Outcome,
    r0: map<Key, Route>, g0: map<Key, Gateway>, r1: map<Key, Route>, g1: map<Key, Gateway>, ws: seq<Request>)
    requires req in r0
    requires ReconcileEffect(req, route, o, r0, g0, r1, g1, ws)
    requires o.Fail? && o.error.BadRequest?
    ensures IsEnabled(route) && route.parentRefs != [] && !route.deleting && HasFinalizer(route)
    ensures var target := TargetGateway(route);
            && target in g0
            && o == ValidateGateway(g0[target], EffectiveIssuer(route.annotations), EffectiveZone(route.annotations))
            && SameAt(target, g0, g1)
  {
  }

  /**
   * A deleting route that is disabled or has no parent reference keeps its
   * finalizer: the run returns before the deletion branch and sends nothing.
   */
  lemma DeletingRouteSkippedKeepsFinalizer(req: Key, o: Outcome,
    r0: map<Key, Route>, g0: map<Key, Gateway>, r1: map<Key, Route>, g1: map<Key, Gateway>, ws: seq<Request>)
    requires req in r0 && r0[req].deleting && HasFinalizer(r0[req])
    requires !IsEnabled(r0[req]) || r0[req].parentRefs == []
    requires ReconcileEffect(req, r0[req], o, r0, g0, r1, g1, ws)
    ensures o == Ok && ws == []
    ensures req in r1 && r1[req].deleting && HasFinalizer(r1[req])
  {
  }

  /**
   * An enabled deleting route with a parent reference, by contrast, has its
   * finalizer released by a successful run.
   */
  lemma DeletingRouteReleasedOnSuccess(req: Key, o: Outcome,
    r0: map<Key, Route>, g0: map<Key, Gateway>, r1: map<Key, Route>, g1: map<Key, Gateway>, ws: seq<Request>)
    requires req in r0 && RouteKey(r0[req]) == req && r0[req].deleting && HasFinalizer(r0[req])
    requires IsEnabled(r0[req]) && r0[req].parentRefs != []
    requires ReconcileEffect(req, r0[req], o, r0, g0, r1, g1, ws) && o.Ok?
    ensures req !in r1 || !HasFinalizer(r1[req])
  {
    FinalizerRemoved(r0, req);
  }
}
