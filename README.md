# gatewayapi-operator: the route reconciler, modelled in Dafny

The operator watches Gateway API `HTTPRoute` objects that carry the annotation
`gatewayapi-operator.vitistack.io/enabled: "true"`. For each one it keeps a
`Gateway` up to date: one HTTPS listener on port 443 per distinct hostname of
all enabled routes that name that gateway. Each listener terminates TLS with
the secret `{hostname}-tls`. The reconciler:

- creates the gateway on first use, recording the route's cert-manager issuer
  and IPAM zone;
- refuses to touch an existing gateway whose recorded issuer or zone differs
  from the route's;
- deletes a gateway once no route names it any more;
- follows a route that moves from one gateway to another;
- holds a finalizer on every route, so that deleting a route first removes
  its hostnames from the gateway.

The model has five modules, one per source file, plus two shared modules:

- `GatewayApi`: the resource values (`Route`, `ParentRef`, `Gateway`,
  `Listener`, TLS and certificate references) and the `Result` / `Outcome`
  error wrappers. Go pointers become `Option`. A read of a missing map key
  gives `""` (`Lookup`), as Go's map index does.
- `ResourceStore`: the cluster as the client sees it. It is a `Store` class
  with `routes` and `gateways` maps keyed by namespace and name.
  - Every read and write may fail. Which calls fail is left open, and a
    failure changes nothing.
  - A ghost log `issued` records every write request sent, successful or not.
    This is what lets contracts say "no write", "no annotation patch" or
    "only this gateway is written".
  - A server-side apply of a gateway replaces its class name and listeners and
    keeps every other field. An apply of route annotations merges them.
  - An update that leaves a deleting route without finalizers removes the
    route, as the API server does.
- `Constants`, `Annotations`: the keys, defaults, port, class name and
  certificate suffix, and the `ptr` helper.
- `ListenerManager`: the listener builder; the route aggregation (a
  reference definition over the set of stored routes, a recursive function
  over the listed sequence, and the nested-loop method proved equal to it);
  and the delete-or-patch of one gateway.
- `GatewayManager`: the issuer and zone checks, create, and ensure
  (create-or-validate-and-update).
- `HttpRouteController`:
  - parsing of the `namespace/name` previous-gateway reference;
  - annotation bookkeeping;
  - the zone and issuer defaults;
  - the finalizer retry loops;
  - the old-gateway and deletion syncs;
  - `Reconcile`.

`Reconcile` is one function in the source. Here it is a load-and-dispatch
method that calls helper methods along the source's own blocks:

- `ReconcileDeletion` for the deletion branch;
- `SyncPreviousGateway` for the migration step;
- `ReconcileLive` for the finalizer add;
- `ConfigureRoute` for the annotation patch and the ensure-gateway step.

Each helper's postcondition is a named predicate (`DeletionEffect`,
`PreviousSynced`, `SteadyEffect`, `ConfiguredEffect`). `ReconcileEffect`
combines them branch by branch.

Several behaviours are modelled as the code has them, although one might
expect otherwise:

- **Two defaults for a parent reference without namespace.** Aggregation
  looks at every parent reference of a route. It reads a missing namespace as
  the gateway's own (`RefersTo`). `Reconcile` looks only at the first
  reference and reads a missing namespace as the route's. So a route in
  namespace `a` with the reference `shared` targets `a/shared`, yet it also
  counts toward a gateway `shared` in any other namespace
  (`RefNamespaceDefaultsDiffer`; `internal/controller/listener_manager.go:49-52`
  against `internal/controller/httproute_controller.go:58-62`).
- **Deletion syncs the current parent.** Deletion syncs the gateway named by
  the current first parent reference, not the previous-gateway annotation
  (`internal/controller/httproute_controller.go:71`).
- **No issuer or zone checks on some paths.** The old-gateway sync and the
  deletion sync skip both checks (`internal/controller/httproute_controller.go:213-321`).
- **Creation with no listeners.** Creation has no empty-aggregate branch, so
  the create request may carry no listeners (`IsNewGateway` allows an empty
  host set; `internal/controller/gateway_manager.go:65-106`).
- **A skipped deleting route keeps its finalizer.** The enabled-flag and
  parent-reference checks (`internal/controller/httproute_controller.go:42-52`)
  come before the deletion branch. A deleting route
  that was disabled, or lost its parent references, while still holding the
  finalizer is never released (`DeletingRouteSkippedKeepsFinalizer`), while
  an enabled one is released by a successful run
  (`DeletingRouteReleasedOnSuccess`).

## Model

| member | source | states |
|---|---|---|
| Constants.PtrDeref | internal/controller/constants.go:37-39 | `ptr(s)` is non-nil and dereferences to `s` |
| Constants.OperatorKeysDistinct | internal/controller/constants.go:5-12 | the finalizer, reconciled-marker and previous-gateway keys are three distinct strings |
| Constants.PortsDistinct | internal/controller/constants.go:24-27 | the HTTPS port is 443 and differs from the HTTP port 80 |
| Annotations.UserAndOperatorKeysDisjoint | internal/controller/annotations.go:7-13 | no user-facing key (enabled, zone, issuer) is one the controller writes, and the route's issuer key differs from the gateway's `cert-manager.io/cluster-issuer` |
| GatewayManager.ZoneKeysAgree | internal/controller/annotations.go:10 | the route's zone key is the literal the gateway records its zone under |
| ResourceStore.Store.GetRoute | internal/controller/httproute_controller.go:38-40 | an absent route reads NotFound; a present one is returned as stored or the read fails |
| ResourceStore.Store.GetGateway | internal/controller/gateway_manager.go:25-38 | an absent gateway reads NotFound; a present one is returned as stored or the read fails |
| ResourceStore.Store.ListRoutes | internal/controller/listener_manager.go:22-27 | a successful list holds exactly the stored routes |
| ResourceStore.Store.UpdateRoute | internal/controller/httproute_controller.go:94-96 | the update is logged; on success the route is replaced (deletion marker kept, a deleting route without finalizers removed); on failure nothing changes and the error is NotFound, Conflict or Unavailable |
| ResourceStore.Store.ApplyRouteAnnotations | internal/controller/httproute_controller.go:170-185 | the patch is logged; on success the given annotations are merged into the route's; on failure nothing changes |
| ResourceStore.Store.CreateGateway | internal/controller/gateway_manager.go:99-102 | the create is logged; an existing key fails with AlreadyExists; on success exactly that gateway is added |
| ResourceStore.Store.ApplyGateway | internal/controller/listener_manager.go:150-170 | the apply is logged; on success the gateway's class name and listeners are replaced and its other fields kept |
| ResourceStore.Store.DeleteGateway | internal/controller/listener_manager.go:141-147 | the delete is logged; on success exactly that gateway is removed |
| ListenerManager.CreateHTTPSListener | internal/controller/listener_manager.go:83-122 | the listener is named and hosted by the hostname, HTTPS on 443, routes from all namespaces, TLS terminated with exactly one reference to the core `Secret` `{hostname}-tls` in the gateway's namespace |
| ListenerManager.HTTPSListenerIsBuilt | internal/controller/listener_manager.go:88-120 | any listener of that shape is the builder's output for its name, and it is never on port 80 |
| ListenerManager.AggregateMembership | internal/controller/listener_manager.go:34-64 | a hostname is collected exactly when some listed route that is not deleting, is enabled and has a parent reference naming the gateway declares it |
| ListenerManager.AggregateIsHostnamesFor | internal/controller/listener_manager.go:29-64 | the scan over the listed routes equals the hostname set of all contributing stored routes |
| ListenerManager.AggregateOrderIndependent | internal/controller/listener_manager.go:30-64 | listing order and repeated routes or hostnames do not change the collected set |
| ListenerManager.NonContributingRouteAddsNothing | internal/controller/listener_manager.go:36-44 | a deleting, disabled or unrelated route adds no hostname |
| ListenerManager.ContributingRouteAddsItsHostnames | internal/controller/listener_manager.go:47-63 | a contributing route adds exactly its own hostnames |
| ListenerManager.ListenerSetsAgree | internal/controller/listener_manager.go:66-71 | two listener sets for the same hostnames hold the same listeners: only the order may differ |
| ListenerManager.CollectHostnames | internal/controller/listener_manager.go:29-64 | the nested loops with `continue` and `break` compute the aggregate of the listed routes |
| ListenerManager.BuildListeners | internal/controller/listener_manager.go:66-71 | one builder listener per collected hostname, names pairwise distinct, as many listeners as hostnames |
| ListenerManager.CollectListenersForGateway | internal/controller/listener_manager.go:14-80 | a list error is returned; otherwise the listeners are exactly one per hostname of the contributing stored routes |
| ListenerManager.SyncRequestRecomputes | internal/controller/listener_manager.go:140-173 | a successful delete-or-apply leaves the gateway recomputed (gone when no hostname remains, else same fields with the new listener set) and no other gateway changed |
| ListenerManager.UpdateGatewayListeners | internal/controller/listener_manager.go:125-174 | a list error writes nothing; an empty aggregate sends exactly one delete; otherwise exactly one apply with the aggregate listeners and the existing class name; success leaves the gateways as that write makes them, failure unchanged |
| ListenerManager.UpdateEffectIsSyncEffect | internal/controller/listener_manager.go:125-174 | for a stored gateway, that outcome is a sync touching only that gateway, recomputed on success and unchanged on failure |
| GatewayManager.ValidateGateway | internal/controller/gateway_manager.go:41-57 | passes iff the recorded issuer (absent reads `""`) equals the route's and no recorded zone differs; an issuer mismatch is reported first, with both issuers; a zone mismatch carries both zones |
| GatewayManager.MissingIssuerRejects | internal/controller/gateway_manager.go:41-46 | a gateway without an issuer annotation rejects every non-empty issuer |
| GatewayManager.NewGatewayValidates | internal/controller/gateway_manager.go:80-97 | a created gateway passes the checks for exactly the issuer and zone it was created with |
| GatewayManager.CreateGateway | internal/controller/gateway_manager.go:65-106 | a collection error aborts before any create; otherwise one create of a gateway with the issuer annotation, class `eg`, the zone infrastructure annotation and the aggregate listeners (possibly none) |
| GatewayManager.EnsureGateway | internal/controller/gateway_manager.go:15-62 | at most one write and only to this gateway; absent means create; a failed issuer or zone check or a read error writes nothing and returns that error; a pass is a recompute; a BadRequest is returned only when the stored gateway fails the check, every other failure being a store error |
| HttpRouteController.TargetRouteContributes | internal/controller/httproute_controller.go:58-62 | the reconciled route counts toward the gateway its first parent reference names |
| HttpRouteController.RefNamespaceDefaultsDiffer | internal/controller/httproute_controller.go:59-62 | a reference without namespace targets the route's namespace, yet counts toward that gateway name in every other namespace |
| HttpRouteController.FirstSlash | internal/controller/httproute_controller.go:218-224 | the index of the first `/`, or the length when there is none |
| HttpRouteController.SplitGatewayRef | internal/controller/httproute_controller.go:217-224 | with a `/`, the reference is namespace + `/` + name with no `/` in the namespace; without one, both parts are empty |
| HttpRouteController.ParseGatewayRef | internal/controller/httproute_controller.go:217-224 | the character loop, which stops at the first '/', computes that split |
| HttpRouteController.RefRoundTrip | internal/controller/httproute_controller.go:115 | parsing `ns + "/" + name` gives back `(ns, name)` when `ns` has no `/`, and is a valid reference when both are non-empty |
| HttpRouteController.OtherRefOtherGateway | internal/controller/httproute_controller.go:118 | a valid previous reference that differs from the current one names another gateway |
| HttpRouteController.SyncedAnnotations | internal/controller/httproute_controller.go:157-168 | afterwards the reconciled marker is present, the previous-gateway annotation is the current reference, and no other key is added, dropped or changed |
| HttpRouteController.SyncRouteAnnotations | internal/controller/httproute_controller.go:157-168 | the in-place updates with the `needsUpdate` flag give those annotations, and the flag is raised exactly when something was missing or stale |
| HttpRouteController.NeedsUpdateIffChanged | internal/controller/httproute_controller.go:157-170 | a patch is needed iff the bookkeeping changes the annotations |
| HttpRouteController.SyncedNeedsNoUpdate | internal/controller/httproute_controller.go:157-170 | bookkeeping is idempotent and leaves nothing to patch |
| HttpRouteController.SyncKeepsUserAnnotations | internal/controller/httproute_controller.go:161-168 | bookkeeping never changes the enabled, zone or issuer annotation |
| HttpRouteController.ApplySynced | internal/controller/httproute_controller.go:170-182 | merging the patch into the route's annotations yields the synced annotations |
| HttpRouteController.SecondRunSendsNoPatch | internal/controller/httproute_controller.go:157-187 | once the patch took effect, a second run on the stored route needs no patch |
| HttpRouteController.EffectiveZone | internal/controller/httproute_controller.go:189-194 | the zone annotation when non-empty, else `hnet-private`; never empty |
| HttpRouteController.EffectiveIssuer | internal/controller/httproute_controller.go:196-201 | the issuer annotation when non-empty, else `internpki`; never empty |
| HttpRouteController.GatewayWithoutIssuerRejectsEveryRoute | internal/controller/gateway_manager.go:41-46 | since the route's issuer is never empty, a gateway without an issuer annotation rejects every route |
| HttpRouteController.AddFinalizer | internal/controller/httproute_controller.go:137-143 | the finalizer is present afterwards, other entries keep their counts, and an absent finalizer is added exactly once |
| HttpRouteController.RemoveFinalizer | internal/controller/httproute_controller.go:94-95 | every occurrence of the finalizer is removed, an entry is kept exactly when it is another one, and a list without the finalizer is returned unchanged |
| HttpRouteController.RemoveFinalizerCounts | internal/controller/httproute_controller.go:94-95 | every other entry keeps its number of occurrences and the finalizer has none left |
| HttpRouteController.RemoveFinalizerKeepsOrder | internal/controller/httproute_controller.go:94-95 | any two kept entries occur in the same order in the original list |
| HttpRouteController.FinalizerAddedOnce | internal/controller/httproute_controller.go:129-145 | after the add the route holds the finalizer exactly once with its annotations unchanged |
| HttpRouteController.FinalizerRemoved | internal/controller/httproute_controller.go:77-97 | after the removal a still-stored route has no finalizer; it is gone iff it was deleting and had no other finalizer |
| HttpRouteController.RemoveFinalizerAppend | internal/controller/httproute_controller.go:94-95 | removing the finalizer from a concatenation removes it from each part |
| HttpRouteController.RemoveUndoesAdd | internal/controller/httproute_controller.go:94-95 | removing the finalizer after adding it gives the same list as removing it directly, and a list that lacked it comes back unchanged |
| HttpRouteController.ReleaseUndoesAdd | internal/controller/httproute_controller.go:77-97 | on a live route without the finalizer, adding and then releasing it restores the stored routes exactly |
| HttpRouteController.AddFinalizerWithRetry | internal/controller/httproute_controller.go:130-150 | at most 5 updates, all of this route; routes unchanged or with the finalizer added; success means added; gateways untouched |
| HttpRouteController.RemoveFinalizerWithRetry | internal/controller/httproute_controller.go:77-104 | at most 5 updates, all of this route; success or NotFound means released; any other failure leaves the routes unchanged |
| HttpRouteController.UpdateOldGateway | internal/controller/httproute_controller.go:213-286 | an unparsable reference is ignored without writes; otherwise a sync of that gateway without issuer or zone checks (absent: nothing; empty aggregate: delete; else apply with the existing class) |
| HttpRouteController.HandleHTTPRouteDeletion | internal/controller/httproute_controller.go:289-321 | a sync of the named gateway without issuer or zone checks; absent means no write and no error |
| HttpRouteController.DeletionEffectOf | internal/controller/httproute_controller.go:64-112 | a gateway sync followed, only on success, by the finalizer removal gives the deletion effect |
| HttpRouteController.ReconcileDeletion | internal/controller/httproute_controller.go:64-112 | only the target gateway and this route are written, every gateway write precedes every route update, the finalizer is released only after the gateway was recomputed without the route, and a failure keeps the finalizer |
| HttpRouteController.PreviousSyncedOf | internal/controller/httproute_controller.go:114-126 | the old-gateway update, run exactly when the previous reference is set and differs, touches only that other gateway and leaves it unchanged or recomputed |
| HttpRouteController.SyncPreviousGateway | internal/controller/httproute_controller.go:114-126 | the previous gateway, and no other, is synced iff the annotation is non-empty and differs from `ns/name`; its error is dropped |
| HttpRouteController.MigrationEffectOf | internal/controller/httproute_controller.go:114-207 | after migration, only the target and the previous gateway can change |
| HttpRouteController.FinalizerAddAfterMigration | internal/controller/httproute_controller.go:128-154 | the finalizer-add step sends no annotation patch, no create and no write to the target gateway |
| HttpRouteController.PatchFailedEffect | internal/controller/httproute_controller.go:182-185 | a failed annotation patch (a store error, never a BadRequest) stops the run before any gateway write |
| HttpRouteController.ConfiguredEffectOf | internal/controller/httproute_controller.go:156-207 | the patch is sent iff needed, the target is written only after it took effect, and the gateway ends as ensure-gateway leaves it for the effective issuer and zone |
| HttpRouteController.ConfiguredAfterMigration | internal/controller/httproute_controller.go:114-207 | writes to the previous gateway before bookkeeping do not change what bookkeeping and ensure-gateway do to the target |
| HttpRouteController.ConfigureRoute | internal/controller/httproute_controller.go:156-207 | the annotation patch and ensure-gateway write only this route and the target gateway, with the effect above; a BadRequest means the target gateway failed the issuer or zone check |
| HttpRouteController.ReconcileLive | internal/controller/httproute_controller.go:114-207 | a live route: migration bound, then either finalizer add and stop, or bookkeeping and ensure-gateway |
| HttpRouteController.Reconcile | internal/controller/httproute_controller.go:33-210 | a missing, disabled or reference-less route, or a deleting one without the finalizer, causes no write and no error; a failed load is returned; otherwise the deletion or live-route effect holds |
| HttpRouteController.RejectionIsConflictCheck | internal/controller/httproute_controller.go:196-207 | a reconcile returns a BadRequest only for an enabled, live route holding the finalizer whose target gateway, as stored before the run, fails the issuer or zone check for the route's effective values; that gateway is not changed |
| HttpRouteController.DeletingRouteSkippedKeepsFinalizer | internal/controller/httproute_controller.go:42-52 | a deleting route that is disabled or has no parent reference is returned from without a write, so it keeps its finalizer |
| HttpRouteController.DeletingRouteReleasedOnSuccess | internal/controller/httproute_controller.go:64-110 | a successful run over an enabled deleting route with a parent reference releases its finalizer |

## Left out

- Kubernetes client calls are the abstract `Store`. Which call fails is not
  determined, and client errors are reduced to NotFound, AlreadyExists,
  Conflict, Unavailable and BadRequest; error message text is not kept.
  Server-side-apply field ownership is reduced to "replace class name and
  listeners" for gateways and "merge the given keys" for route annotations.
- Retry backoff timing: `retry.DefaultRetry` is modelled only by its attempt
  count, `RetrySteps = 5`, with no waiting between attempts.
- `SetupWithManager` and `MaxConcurrentReconciles`: one reconcile runs at a
  time.
- Watch and event redelivery, other writers changing the store between two
  steps of one reconcile, and stale `List` caches. The store changes only
  through the reconcile's own writes.
- Logging and the route/skip counters, which are only logged.
- RBAC markers, and the `TypeMeta` / `APIVersion` of patch objects.
- The requeue `ctrl.Result`: it is always empty, so only the error outcome is
  modelled.
- Go map iteration order: the listener order is left open, and listener sets
  are specified up to permutation (`IsListenerSetFor`).
- TLS certificate issuance: only the secret name is built.
- Schema validation by the API server: the store accepts any object, so it
  does not reject, for example, a gateway created with no listeners, which
  the Gateway API schema would refuse.
- Nil and empty maps are not distinguished. Absent annotations are the empty
  map; missing infrastructure annotations are `None` or an empty map, which
  the zone check treats alike.
- Strings are character sequences. The Go loop in `updateOldGateway` walks
  runes and slices at byte offsets; since `/` is one byte, the split is the
  same.
- Reconcile: its contract allows a failed load (`Fail(Unavailable)` with
  nothing written) as well as the branch effect, because a read that fails
  is not determined.
