/**
 * The Traefik traffic-routing reconciler: from a requested canary weight it
 * derives the desired annotations and rules of an Ingress, compares them
 * with the live object, and patches the object only when they differ.
 */
module Traefik {
  import opened Wrappers
  import opened GoFmt
  import opened IngressModel

  /**
   * The annotation key ingressutil.TraefikServiceWeightsKey returns. Its
   * definition is not part of this model; no proof depends on its value.
   */
  const WeightsKey: string := "ingress.kubernetes.io/service-weights"

  /** The template's opening: a YAML block-scalar marker and a line break. */
  const WeightPrefix: string := "|\n"

  /**
   * The template ends in a lone `%`, which fmt renders as this marker
   * instead of a literal percent sign.
   */
  const NoVerbSuffix: string := "%!(NOVERB)"

  const EventTypeNormal: string := "Normal"
  const PatchingReason: string := "PatchingTraefikIngress"
  const EventLead: string := "Updating Ingress `"
  const EventMiddle: string := "` to desiredWeight '"

  /** The Traefik section of a rollout's canary traffic routing. */
  datatype TraefikRouting = TraefikRouting(ingress: string, rootService: string, servicePort: Int32)

  /** The parts of a Rollout the reconciler reads. */
  datatype Rollout = Rollout(
    namespace: string,
    stableService: string,
    canaryService: string,
    traefik: TraefikRouting)

  /** The service whose paths get a canary sibling: the root service when it is set. */
  function ActionService(ro: Rollout): (s: string)
    ensures ro.traefik.rootService != "" ==> s == ro.traefik.rootService
    ensures ro.traefik.rootService == "" ==> s == ro.stableService
  {
    if ro.traefik.rootService != "" then ro.traefik.rootService else ro.stableService
  }

  // ---------------------------------------------------------------------
  // Weight annotation

  /**
   * getServiceWeightsString: the value stored under WeightsKey. It opens
   * with the block-scalar marker, closes with the NOVERB marker, and the
   * canary service and the weight can be read back at their positions.
   */
  function WeightString(canaryService: string, desiredWeight: Int32): (s: string)
    ensures |s| > |WeightPrefix| + |canaryService| + 2 + |NoVerbSuffix|
    ensures s[..|WeightPrefix|] == WeightPrefix
    ensures s[|s| - |NoVerbSuffix|..] == NoVerbSuffix
    ensures s[|WeightPrefix|..|WeightPrefix| + |canaryService|] == canaryService
    ensures s[|WeightPrefix| + |canaryService|..|WeightPrefix| + |canaryService| + 2] == ": "
    ensures ParseDecimal(s[|WeightPrefix| + |canaryService| + 2..|s| - |NoVerbSuffix|]) == desiredWeight as int
  {
    var d := Decimal(desiredWeight as int);
    DecimalRoundTrip(desiredWeight as int);
    var s := WeightPrefix + canaryService + ": " + d + NoVerbSuffix;
    assert s[|WeightPrefix| + |canaryService| + 2..|s| - |NoVerbSuffix|] == d;
    s
  }

  /** The current annotations with the weights key set to the weight string and nothing else touched. */
  function DesiredAnnotations(current: map<string, string>, canaryService: string, desiredWeight: Int32)
    : (desired: map<string, string>)
    ensures desired.Keys == current.Keys + {WeightsKey}
    ensures desired[WeightsKey] == WeightString(canaryService, desiredWeight)
    ensures forall k :: k in current && k != WeightsKey ==> desired[k] == current[k]
  {
    current[WeightsKey := WeightString(canaryService, desiredWeight)]
  }

  /**
   * getDesiredAnnotations: copy the annotation map and write one entry.
   * Writing into a nil map panics in Go, so a nil map is excluded here and
   * handled as a panic by Reconcile.
   */
  method GetDesiredAnnotations(current: Ingress, ro: Rollout, desiredWeight: Int32)
    returns (desired: map<string, string>)
    requires current.annotations.Some?
    ensures desired == DesiredAnnotations(current.annotations.value, ro.canaryService, desiredWeight)
  {
    desired := current.annotations.value;
    var key := WeightsKey;
    desired := desired[key := WeightString(ro.canaryService, desiredWeight)];
  }

  // ---------------------------------------------------------------------
  // Rule derivation

  /** j is the last index of `paths` whose backend is `svc`. */
  predicate IsLastPathTo(paths: seq<HttpPath>, svc: string, j: int) {
    && 0 <= j < |paths|
    && paths[j].backend.serviceName == svc
    && forall k :: j < k < |paths| ==> paths[k].backend.serviceName != svc
  }

  /** The index of the last path to `svc`, if any. */
  function LastPathIndex(paths: seq<HttpPath>, svc: string): (r: Option<nat>)
    ensures r.None? <==> !HasPathTo(paths, svc)
    ensures r.Some? ==> IsLastPathTo(paths, svc, r.value)
  {
    if paths == [] then None
    else if paths[|paths| - 1].backend.serviceName == svc then Some(|paths| - 1)
    else
      var r := LastPathIndex(paths[..|paths| - 1], svc);
      assert HasPathTo(paths, svc) ==> HasPathTo(paths[..|paths| - 1], svc) by {
        if HasPathTo(paths, svc) {
          var j :| 0 <= j < |paths| && paths[j].backend.serviceName == svc;
          assert paths[..|paths| - 1][j].backend.serviceName == svc;
        }
      }
      r
  }

  /** The copy of `p` that forwards to the canary service on the numeric port. */
  function CanaryPath(p: HttpPath, canaryService: string, port: Int32): (c: HttpPath)
    ensures c.path == p.path
    ensures c.backend.serviceName == canaryService && c.backend.servicePort == IntValue(port)
  {
    p.(backend := IngressBackend(canaryService, IntValue(port)))
  }

  /**
   * The rule after the loop over `paths` has seen matches up to `last`: the
   * rule itself when nothing matched, otherwise the ORIGINAL paths followed
   * by one canary copy of the last match (each match overwrites the previous
   * append, because the append is always to the original slice).
   */
  function ExtendedRule(rule: Rule, paths: seq<HttpPath>, last: Option<nat>, canaryService: string, port: Int32): (r: Rule)
    requires last.Some? ==> last.value < |paths|
    ensures r.host == rule.host
    ensures last.None? ==> r == rule
    ensures last.Some? ==>
              && r.http.Some?
              && |r.http.value| == |paths| + 1
              && r.http.value[..|paths|] == paths
              && r.http.value[|paths|].path == paths[last.value].path
              && r.http.value[|paths|].backend == IngressBackend(canaryService, IntValue(port))
  {
    match last
    case None => rule
    case Some(j) => rule.(http := Some(paths + [CanaryPath(paths[j], canaryService, port)]))
  }

  /** One rule of getDesiredRules' result. */
  function DesiredRule(rule: Rule, actionService: string, canaryService: string, port: Int32): (r: Rule)
    ensures r.host == rule.host
    ensures r.http.None? <==> rule.http.None?
    ensures rule.http.Some? ==>
              var paths := rule.http.value;
              && |r.http.value| == |paths| + (if HasPathTo(paths, actionService) then 1 else 0)
              && r.http.value[..|paths|] == paths
  {
    match rule.http
    case None => rule
    case Some(paths) => ExtendedRule(rule, paths, LastPathIndex(paths, actionService), canaryService, port)
  }

  /** getDesiredRules as a function: the rules, one by one, in order. */
  function DesiredRules(rules: seq<Rule>, actionService: string, canaryService: string, port: Int32)
    : (desired: seq<Rule>)
    ensures |desired| == |rules|
    ensures forall i :: 0 <= i < |rules| ==> desired[i] == DesiredRule(rules[i], actionService, canaryService, port)
  {
    if rules == [] then []
    else [DesiredRule(rules[0], actionService, canaryService, port)]
         + DesiredRules(rules[1..], actionService, canaryService, port)
  }

  /**
   * getDesiredRules: start from a copy of the rules and, for every path of
   * every HTTP rule that forwards to the action service, overwrite that
   * rule's paths with the original paths plus a canary copy of the path.
   */
  method GetDesiredRules(current: Ingress, actionService: string, canaryService: string, port: Int32)
    returns (desired: seq<Rule>)
    ensures desired == DesiredRules(current.rules, actionService, canaryService, port)
  {
    var rules := current.rules;
    desired := rules;
    var ruleIndex := 0;
    while ruleIndex < |rules|
      invariant 0 <= ruleIndex <= |rules| == |desired|
      invariant forall k :: 0 <= k < ruleIndex ==> desired[k] == DesiredRule(rules[k], actionService, canaryService, port)
      invariant forall k :: ruleIndex <= k < |rules| ==> desired[k] == rules[k]
    {
      var rule := rules[ruleIndex];
      if rule.http.Some? {
        var paths := rule.http.value;
        var j := 0;
        while j < |paths|
          invariant 0 <= j <= |paths|
          invariant |desired| == |rules|
          invariant forall k :: 0 <= k < ruleIndex ==> desired[k] == DesiredRule(rules[k], actionService, canaryService, port)
          invariant forall k :: ruleIndex < k < |rules| ==> desired[k] == rules[k]
          invariant desired[ruleIndex] == ExtendedRule(rule, paths, LastPathIndex(paths[..j], actionService), canaryService, port)
        {
          var path := paths[j];
          assert paths[..j + 1][..j] == paths[..j];
          if path.backend.serviceName == actionService {
            var canaryPath := path.(backend := IngressBackend(canaryService, IntValue(port)));
            desired := desired[ruleIndex := desired[ruleIndex].(http := Some(paths + [canaryPath]))];
          }
          j := j + 1;
        }
        assert paths[..j] == paths;
      }
      ruleIndex := ruleIndex + 1;
    }
  }

  // ---------------------------------------------------------------------
  // Change detection

  /** The two fields calculatePatch compares; a nil annotation map serialises like an empty one. */
  datatype Projection = Projection(annotations: map<string, string>, rules: seq<Rule>)

  function AnnotationsOrEmpty(annotations: Option<map<string, string>>): map<string, string> {
    match annotations
    case None => map[]
    case Some(m) => m
  }

  function Project(ing: Ingress): Projection {
    Projection(AnnotationsOrEmpty(ing.annotations), ing.rules)
  }

  /**
   * The patch document, kept opaque: it is represented by the projection it
   * moves the object to.
   */
  datatype PatchResult = PatchResult(patch: Projection, modified: bool)

  /**
   * A merge patch applied to the object it was computed from: the two
   * fields take the patch's values. A JSON merge patch merges annotations
   * key by key; that equals replacing them here because the desired map
   * holds every key of the current one (DesiredAnnotations only adds), and
   * this model only applies a patch to the object it was computed from.
   */
  function ApplyPatch(ing: Ingress, patch: Projection): (r: Ingress)
    ensures Project(r) == patch
    ensures r.namespace == ing.namespace && r.name == ing.name
    ensures r.labels == ing.labels && r.defaultBackend == ing.defaultBackend
  {
    ing.(annotations := Some(patch.annotations), rules := patch.rules)
  }

  /**
   * calculatePatch: a two-way merge patch between the current and the
   * desired projections, and whether they differ.
   */
  function CalculatePatch(current: Ingress, desiredAnnotations: map<string, string>, desiredRules: seq<Rule>)
    : (r: PatchResult)
    ensures r.modified <==> AnnotationsOrEmpty(current.annotations) != desiredAnnotations || current.rules != desiredRules
    ensures Project(ApplyPatch(current, r.patch)) == Projection(desiredAnnotations, desiredRules)
  {
    var desired := Projection(desiredAnnotations, desiredRules);
    PatchResult(desired, Project(current) != desired)
  }

  // ---------------------------------------------------------------------
  // Reconcile

  datatype Error =
    | NotFound(name: string)                       // the lister's error, returned unchanged
    | ServiceNotInRules(service: string)           // "ingress does not have service `<service>` in rules"
    | PatchFailed(ingress: string, cause: string)  // "error patching traefik ingress `<ingress>`: <cause>"

  /** What Reconcile ends with: nil, an error, or a Go panic (a write into a nil map). */
  datatype Status = Success | Failure(error: Error) | Panic

  /** What Reconcile does to the outside world, in order. */
  datatype Action =
    | RecordEvent(eventType: string, reason: string, message: string)
    | PatchIngress(namespace: string, name: string, patch: Projection)

  datatype Step = Step(status: Status, actions: seq<Action>)

  /** The event's message; the ingress name and the weight can be read back at their positions. */
  function EventMessage(ingressName: string, desiredWeight: Int32): (m: string)
    ensures |m| > |EventLead| + |ingressName| + |EventMiddle|
    ensures m[..|EventLead|] == EventLead
    ensures m[|EventLead|..|EventLead| + |ingressName|] == ingressName
    ensures m[|EventLead| + |ingressName|..|EventLead| + |ingressName| + |EventMiddle|] == EventMiddle
    ensures m[|m| - 1] == '\''
    ensures ParseDecimal(m[|EventLead| + |ingressName| + |EventMiddle|..|m| - 1]) == desiredWeight as int
  {
    var d := Decimal(desiredWeight as int);
    DecimalRoundTrip(desiredWeight as int);
    var m := EventLead + ingressName + EventMiddle + d + "'";
    assert m[|EventLead| + |ingressName| + |EventMiddle|..|m| - 1] == d;
    m
  }

  /**
   * One Reconcile call as a function of the configuration, the lister's
   * cache (keyed by namespace and name), the requested weight, and the
   * answer the API server gives to a patch write (None for success).
   */
  function ReconcileStep(ro: Rollout, store: map<(string, string), Ingress>, desiredWeight: Int32, patchOutcome: Option<string>)
    : (r: Step)
    ensures r.actions == [] || (|r.actions| == 2 && r.actions[0].RecordEvent? && r.actions[1].PatchIngress?)
    ensures r.actions != [] ==>
              r.status == (if patchOutcome.Some? then Failure(PatchFailed(ro.traefik.ingress, patchOutcome.value)) else Success)
    ensures r.actions == [] ==> !(r.status.Failure? && r.status.error.PatchFailed?)
    ensures r.actions != [] ==>
              && (ro.namespace, ro.traefik.ingress) in store
              && r.actions[0] == RecordEvent(EventTypeNormal, PatchingReason, EventMessage(ro.traefik.ingress, desiredWeight))
              && r.actions[1].namespace == store[(ro.namespace, ro.traefik.ingress)].namespace
              && r.actions[1].name == store[(ro.namespace, ro.traefik.ingress)].name
    ensures (ro.namespace, ro.traefik.ingress) !in store ==> r == Step(Failure(NotFound(ro.traefik.ingress)), [])
  {
    var ingressName := ro.traefik.ingress;
    if (ro.namespace, ingressName) !in store then Step(Failure(NotFound(ingressName)), [])
    else
      var ing := store[(ro.namespace, ingressName)];
      var actionService := ActionService(ro);
      if !HasRuleWithService(ing, actionService) then Step(Failure(ServiceNotInRules(actionService)), [])
      else if ing.annotations.None? then Step(Panic, [])
      else
        var desiredAnnotations := DesiredAnnotations(ing.annotations.value, ro.canaryService, desiredWeight);
        var desiredRules := DesiredRules(ing.rules, actionService, ro.canaryService, ro.traefik.servicePort);
        var p := CalculatePatch(ing, desiredAnnotations, desiredRules);
        if !p.modified then Step(Success, [])
        else
          var status := match patchOutcome
            case None => Success
            case Some(cause) => Failure(PatchFailed(ingressName, cause));
          Step(status, [RecordEvent(EventTypeNormal, PatchingReason, EventMessage(ingressName, desiredWeight)),
                        PatchIngress(ing.namespace, ing.name, p.patch)])
  }

  /** The reconciler with its configuration, its lister's cache, and the log of what it has done. */
  class Reconciler {
    const cfg: Rollout
    const store: map<(string, string), Ingress>
    var log: seq<Action>

    constructor (cfg: Rollout, store: map<(string, string), Ingress>)
      ensures this.cfg == cfg && this.store == store && log == []
    {
      this.cfg := cfg;
      this.store := store;
      log := [];
    }

    /** Reconcile: look up, validate, derive, diff, and write at most once. */
    method Reconcile(desiredWeight: Int32, patchOutcome: Option<string>) returns (status: Status)
      modifies this`log
      ensures status == ReconcileStep(cfg, store, desiredWeight, patchOutcome).status
      ensures log == old(log) + ReconcileStep(cfg, store, desiredWeight, patchOutcome).actions
    {
      var ingressName := cfg.traefik.ingress;
      if (cfg.namespace, ingressName) !in store {
        return Failure(NotFound(ingressName));
      }
      var ingress := store[(cfg.namespace, ingressName)];
      var actionService := cfg.stableService;
      var canaryService := cfg.canaryService;
      if cfg.traefik.rootService != "" {
        actionService := cfg.traefik.rootService;
      }
      var port := cfg.traefik.servicePort;
      if !HasRuleWithService(ingress, actionService) {
        return Failure(ServiceNotInRules(actionService));
      }
      if ingress.annotations.None? {
        // writing the weights key into a nil map
        return Panic;
      }
      var desiredAnnotations := GetDesiredAnnotations(ingress, cfg, desiredWeight);
      var desiredRules := GetDesiredRules(ingress, actionService, canaryService, port);
      var p := CalculatePatch(ingress, desiredAnnotations, desiredRules);
      if !p.modified {
        return Success;
      }
      log := log + [RecordEvent(EventTypeNormal, PatchingReason, EventMessage(ingressName, desiredWeight))];
      log := log + [PatchIngress(ingress.namespace, ingress.name, p.patch)];
      match patchOutcome {
        case Some(cause) => status := Failure(PatchFailed(ingressName, cause));
        case None => status := Success;
      }
    }
  }
}
