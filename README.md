# Traefik traffic-routing reconciler, modelled in Dafny

This project models the Traefik backend of Argo Rollouts' traffic routing.
Given a requested canary weight, the reconciler does five things:

1. It looks up the Ingress named in the rollout.
2. It chooses the action service: the root service when one is set, otherwise the stable service.
3. It checks that some rule routes to that service.
4. It derives the desired annotations and rules, and compares them with the live object.
5. When they differ, it records one event and issues one merge-patch write.

Files:

- `wrappers.dfy`: `Option`, which stands for Go's nil pointers and nil maps.
- `gofmt.dfy`: Go's `int32` and what `%d` prints, with a parser proved to be its inverse.
- `ingress.dfy`: the extensions/v1beta1 Ingress fields used here, as values, and the `HasRuleWithService` helper.
- `traefik.dfy`: the core.
  - `WeightString` and `DesiredAnnotations` / `GetDesiredAnnotations` build the weight annotation.
  - `DesiredRules` / `GetDesiredRules` derive the rules. `GetDesiredRules` is the nested loop, proved equal to the function.
  - `CalculatePatch` compares the live and desired projections.
  - `ReconcileStep` specifies one call. The `Reconciler` class holds the rollout, the lister's cache (a map from namespace and name to an Ingress) and an ordered log of events and patch writes. Its `Reconcile` method appends to that log.
- `traefik_proofs.dfy`: the properties, and the corrected rule derivation of the finding below.

Three behaviours of the code are easy to misread; the model follows the code in each:

- **One canary path per rule** (traefik.go:139-148). Each match overwrites the rule's paths with the original paths plus a canary copy of that match. So a rule gets exactly one canary path, copied from its last matching path, however many paths match. It does not get one canary path per matching path (`DesiredRuleShape`, `TwoMatchingPathsOneCanary`).
- **The template suffix** (traefik.go:122-126). The weight template ends in a lone `%`. Go's fmt renders that as `%!(NOVERB)`, not as a literal percent sign. The value is `"|\n" + service + ": " + decimal(weight) + "%!(NOVERB)"`, and the suffix is the constant `Traefik.NoVerbSuffix`.
- **Event timing** (traefik.go:92-93). The event is recorded before the write is issued, so it is recorded whatever the write's outcome, including a failed write.

What the environment supplies, as parameters:

- The lister is the `store` map. A missing key is the lister's not-found error, which is returned unchanged.
- The API server's answer to the patch write is the `patchOutcome` argument: `None` for success, `Some(message)` for failure.
- A write into a nil annotation map (line 132) panics in Go. The model gives that outcome as `Status.Panic`.

## Model

| member | source | states |
|---|---|---|
| Traefik.WeightString | rollout/trafficrouting/traefik/traefik.go:122-126 | the value starts with a bar and a newline, then the canary service and `": "`, then a decimal that reads back as the weight, and ends with `%!(NOVERB)`, which is what Go's fmt prints for the template's lone trailing `%` |
| GoFmt.Decimal | rollout/trafficrouting/traefik/traefik.go:122-126 | `%d` output is non-empty and made only of digits and a minus sign, so it never contains the `:` separator |
| GoFmt.DecimalRoundTrip | rollout/trafficrouting/traefik/traefik.go:122-126 | reading `%d` output back as a decimal gives the number printed, for negative numbers too |
| GoFmt.DecimalInjective | rollout/trafficrouting/traefik/traefik.go:122-126 | distinct weights print as distinct strings |
| TraefikProofs.WeightStringInjective | rollout/trafficrouting/traefik/traefik.go:122-126 | the annotation value determines both the canary service name and the weight, so changing either one changes the value |
| Traefik.DesiredAnnotations | rollout/trafficrouting/traefik/traefik.go:128-134 | the result's keys are the current keys plus the weights key; the weights key maps to the weight string for the canary service; every other key keeps its value |
| Traefik.GetDesiredAnnotations | rollout/trafficrouting/traefik/traefik.go:128-134 | copying the map and writing the one entry gives exactly `DesiredAnnotations`; a nil map is excluded because the write at line 132 panics |
| Traefik.CanaryPath | rollout/trafficrouting/traefik/traefik.go:143-146 | the canary copy of a path keeps its path and points its backend at the canary service on the numeric port |
| Traefik.ExtendedRule | rollout/trafficrouting/traefik/traefik.go:139-148 | with no match the rule is unchanged; after a last match at index j the rule keeps its host, keeps all its original paths as a prefix, and has exactly one more path, with path j's path and the canary backend |
| Traefik.DesiredRule | rollout/trafficrouting/traefik/traefik.go:139-148 | a rule keeps its host and whether it has an HTTP section; its path list grows by one exactly when some path routes to the action service, and the original paths stay a prefix |
| Traefik.LastPathIndex | rollout/trafficrouting/traefik/traefik.go:141-148 | finds no index exactly when no path routes to the service; otherwise it finds the last path that does |
| Traefik.DesiredRules | rollout/trafficrouting/traefik/traefik.go:136-154 | gives the same number of rules, in the same order, each derived on its own |
| Traefik.GetDesiredRules | rollout/trafficrouting/traefik/traefik.go:136-154 | the nested loop over rules and paths, overwriting a rule's paths on every match, gives exactly `DesiredRules` of the current rules |
| TraefikProofs.DesiredRuleShape | rollout/trafficrouting/traefik/traefik.go:139-148 | a rule with nil HTTP, or with no path to the action service, is returned unchanged; a matched rule keeps its host and its original paths as a prefix, and gets exactly one more path: the last matching path's copy with the canary service and numeric port |
| TraefikProofs.TwoMatchingPathsOneCanary | rollout/trafficrouting/traefik/traefik.go:141-148 | a rule with two paths to the action service gets a single canary path, copied from the second |
| TraefikProofs.DesiredRuleGrows | rollout/trafficrouting/traefik/traefik.go:139-148 | a matched rule's path list grows by exactly one and still routes to the action service |
| TraefikProofs.RederiveAddsAnotherCanaryPath | rollout/trafficrouting/traefik/traefik.go:136-154 | deriving again from a derived rule adds a second canary path, so the derivation is not idempotent |
| TraefikProofs.DesiredRulesDiffer | rollout/trafficrouting/traefik/traefik.go:68-79 | once some rule routes to the action service, the desired rules never equal the current rules |
| Traefik.CalculatePatch | rollout/trafficrouting/traefik/traefik.go:101-120 | reports modified exactly when the annotations or the rules differ from the desired ones; applying its patch gives an object whose two fields are the desired ones |
| Traefik.ApplyPatch | rollout/trafficrouting/traefik/traefik.go:93 | applying the patch to the object it was computed from sets annotations and rules to the patch's values, and keeps namespace, name and every other field; a merge patch merges annotations key by key, which equals replacing them here because the desired map holds every current key |
| TraefikProofs.PatchIgnoresOtherFields | rollout/trafficrouting/traefik/traefik.go:101-120 | two objects with the same annotations and rules get the same patch and the same modified flag, whatever their other fields |
| TraefikProofs.PatchedObjectUnmodified | rollout/trafficrouting/traefik/traefik.go:101-120 | after the patch is applied, comparing against the same desired state reports no change |
| Traefik.ActionService | rollout/trafficrouting/traefik/traefik.go:61-65 | the action service is the root service when it is non-empty, and the stable service otherwise |
| Traefik.EventMessage | rollout/trafficrouting/traefik/traefik.go:92 | the message is the fixed lead `EventLead` ("Updating Ingress" and a backquote), the ingress name, the fixed `EventMiddle` (a backquote, " to desiredWeight " and a quote), a decimal that reads back as the weight, and a closing quote |
| Traefik.ReconcileStep | rollout/trafficrouting/traefik/traefik.go:54-99 | a missing ingress returns the not-found error with no action; otherwise a call's actions are either none, or one `Normal` `PatchingTraefikIngress` event carrying `EventMessage` for the ingress and weight, followed by one patch write to the looked-up object's namespace and name; when there are actions, the status is success or the write's error wrapped with the ingress name, and without actions the status is never a write error |
| Traefik.Reconciler.Reconcile | rollout/trafficrouting/traefik/traefik.go:54-99 | the returned status and the actions appended to the log are those of `ReconcileStep`; the store is never changed |
| Traefik.Reconciler.constructor | rollout/trafficrouting/traefik/traefik.go:40-46 | a new reconciler keeps its rollout and lister, and its log starts empty |
| TraefikProofs.ErrorExitsAreSilent | rollout/trafficrouting/traefik/traefik.go:57-70 | a missing ingress gives the lister's not-found error; an ingress with no rule to the action service (the root service if set, otherwise the stable one) gives an error naming that service; neither records an event or writes |
| TraefikProofs.AtMostOneWrite | rollout/trafficrouting/traefik/traefik.go:85-97 | every call writes at most once and records as many events as writes; with no write the log is untouched and no write error is returned; a write is the second of exactly two actions, right after its one event, and a failed write is returned wrapped with the ingress name |
| TraefikProofs.PresenceCheckForcesWrite | rollout/trafficrouting/traefik/traefik.go:68-97 | once the presence check passes (and there is an annotation map), the call records the event and writes the derived annotations and rules to the ingress, so the no-change branch at lines 85-88 is unreachable |
| TraefikProofs.PresenceCheckWritesOnce | rollout/trafficrouting/traefik/traefik.go:68-97 | once the presence check passes (and there is an annotation map), the call makes exactly one patch write |
| TraefikProofs.DerivedKeepsService | rollout/trafficrouting/traefik/traefik.go:136-154 | the patched object still has a rule that routes to the action service |
| TraefikProofs.SecondPassStillWrites | rollout/trafficrouting/traefik/traefik.go:54-99 | a second call at the same weight, on the object that the first call's successful write produced, writes again |
| TraefikProofs.NoChangesScenarioWrites | rollout/trafficrouting/traefik/traefik_test.go:122-138 | in the TestNoChanges scenario, where the weight annotation is already at 10, the call issues one patch write |
| TraefikProofs.NoChangesFixtureRewrittenByUpsert | rollout/trafficrouting/traefik/traefik_test.go:122-138 | the TestNoChanges fixture has no canary path, so the corrected derivation rewrites its rules too |
| TraefikProofs.WithoutPathsTo | rollout/trafficrouting/traefik/traefik.go:139-148 | the corrected derivation's filter keeps exactly the paths that do not route to the dropped service, and no more paths than it was given |
| TraefikProofs.UpsertRule | rollout/trafficrouting/traefik/traefik.go:136-154 | the corrected derivation of one rule keeps its host and whether it has an HTTP section, and leaves a rule with no path to the action service unchanged |
| TraefikProofs.UpsertRuleShape | rollout/trafficrouting/traefik/traefik.go:139-148 | a matched rule becomes its non-canary paths followed by the canary copy of its last path to the action service; that last path is its only canary path, and every non-canary path of the rule is kept |
| TraefikProofs.UpsertRules | rollout/trafficrouting/traefik/traefik.go:136-154 | the corrected derivation gives the same number of rules, in the same order, each upserted on its own |
| TraefikProofs.UpsertRuleIdempotent | rollout/trafficrouting/traefik/traefik.go:139-148 | when the action and canary services differ, upserting a rule a second time changes nothing |
| TraefikProofs.UpsertSecondPassUnmodified | rollout/trafficrouting/traefik/traefik.go:136-154 | with the corrected derivation, a second pass at the same weight on the patched object detects no change, so it writes nothing |

## Left out

- `Type()` and `NewReconciler`: trivial accessors. The constructor stands for `NewReconciler`.
- Logging through logrus: it is only diagnostic output.
- The event recorder: only the event's type, reason and message are recorded, as a log entry.
- The Kubernetes client, lister and informers: network and cache plumbing. The lister is a map, and the write's answer is a parameter.
- Lister failures other than not-found cannot arise from a map.
- The bytes of the patch document: `diff.CreateTwoWayMergePatch` is not part of this model. A patch is the projection it moves the object to, and `ApplyPatch` gives its merge result.
- The error result of `CreateTwoWayMergePatch` (lines 82-84): the model treats it as never failing.
- The error results of `getDesiredAnnotations` and `getDesiredRules`: both are always nil, so the early returns at lines 73-79 are omitted.
- Error texts: errors are kept as structured values (`NotFound`, `ServiceNotInRules`, `PatchFailed`) carrying the names that the Go messages embed, not as rendered strings.
- `ingressutil.HasRuleWithService` is not part of this model. It is assumed to mean "some rule with a non-nil HTTP section has a path whose backend service name equals the argument".
- `ingressutil.TraefikServiceWeightsKey` is not part of this model. It is a fixed stand-in string; no proof depends on its value.
- Nil `Canary`, `TrafficRouting` or `Traefik` pointers in the rollout: these are dereferences the source assumes succeed. The rollout is a plain value.
- `DeepCopy` and the sharing of a slice's backing array by `append`: memory-level effects. The model uses value semantics.
- Ingress fields the reconciler never compares: they are represented by `labels` and `defaultBackend`. A path's type and a backend's resource reference are also left out.
- JSON encoding details: a nil annotation map compares like an empty one. Nil and empty rule or path slices are not distinguished.
- Named service ports: they pass through unchanged. The reconciler only produces numeric ports.

## Findings

| source | as written | input that shows it | evidently intended | confidence | as-written member | corrected member |
|---|---|---|---|---|---|---|
| rollout/trafficrouting/traefik/traefik.go:136-154 | every call appends a canary path to each rule that routes to the action service, so the rules always change and every call that passes the presence check and has an annotation map writes | any ingress the presence check accepts, reconciled once at some weight and then again at the same weight on the object the first write produced | a second pass at the same weight on the patched object writes nothing | not executed | TraefikProofs.SecondPassStillWrites | TraefikProofs.UpsertSecondPassUnmodified |

The corrected derivation is `TraefikProofs.UpsertRule`. It drops existing canary paths before appending the one canary path. With it, a second pass over the patched object detects no change. `Reconcile` itself keeps the derivation as written, because it models what the deployed code does. `PresenceCheckForcesWrite` and `SecondPassStillWrites` give the consequences of that derivation.

TestNoChanges (traefik_test.go:122-138) expects no client action, but its fixture has no canary path yet, so it is written under both derivations: `NoChangesScenarioWrites` for the code as written, `NoChangesFixtureRewrittenByUpsert` for the corrected one. The finding is about the second pass, not about that fixture.
