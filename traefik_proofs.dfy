/** Properties of the Traefik reconciler model. */
module TraefikProofs {
  import opened Wrappers
  import opened GoFmt
  import opened IngressModel
  import opened Traefik

  // ---------------------------------------------------------------------
  // Weight annotation value

  /** The index of the last colon in `s`, or -1. */
  function LastColon(s: string): int {
    if s == [] then -1 else if s[|s| - 1] == ':' then |s| - 1 else LastColon(s[..|s| - 1])
  }

  lemma {:induction false} LastColonAfter(a: string, d: string)
    requires forall i :: 0 <= i < |d| ==> d[i] != ':'
    ensures LastColon(a + ": " + d) == |a|
  {
    var s := a + ": " + d;
    if d == [] {
      assert s[..|s| - 1] == a + ":";
    } else {
      var init := d[..|d| - 1];
      assert s[..|s| - 1] == a + ": " + init;
      LastColonAfter(a, init);
    }
  }

  /** `a + ": " + d` splits uniquely when `d` holds no colon. */
  lemma SplitAtLastSeparator(a1: string, d1: string, a2: string, d2: string)
    requires forall i :: 0 <= i < |d1| ==> d1[i] != ':'
    requires forall i :: 0 <= i < |d2| ==> d2[i] != ':'
    requires a1 + ": " + d1 == a2 + ": " + d2
    ensures a1 == a2 && d1 == d2
  {
    var x := a1 + ": " + d1;
    LastColonAfter(a1, d1);
    LastColonAfter(a2, d2);
    assert a1 == x[..LastColon(x)] == a2;
    assert d1 == x[LastColon(x) + 2..] == d2;
  }

  /**
   * The weight string determines the canary service and the weight: a
   * changed weight or a changed canary name always changes the annotation.
   */
  lemma WeightStringInjective(svc1: string, w1: Int32, svc2: string, w2: Int32)
    ensures WeightString(svc1, w1) == WeightString(svc2, w2) ==> svc1 == svc2 && w1 == w2
  {
    var d1, d2 := Decimal(w1 as int), Decimal(w2 as int);
    var m1 := svc1 + ": " + d1;
    var m2 := svc2 + ": " + d2;
    WeightStringIs(svc1, w1);
    WeightStringIs(svc2, w2);
    if WeightString(svc1, w1) == WeightString(svc2, w2) {
      StripAffixes(WeightPrefix, m1, m2, NoVerbSuffix);
      SplitAtLastSeparator(svc1, d1, svc2, d2);
      DecimalInjective(w1 as int, w2 as int);
    }
  }

  lemma WeightStringIs(svc: string, w: Int32)
    ensures WeightString(svc, w) == WeightPrefix + (svc + ": " + Decimal(w as int)) + NoVerbSuffix
  {
  }

  lemma StripAffixes(p: string, m1: string, m2: string, q: string)
    requires p + m1 + q == p + m2 + q
    ensures m1 == m2
  {
    var s := p + m1 + q;
    assert m1 == s[|p|..|s| - |q|];
  }

  // ---------------------------------------------------------------------
  // Rule derivation

  /** Untouched rules, and the shape of a rule with a path to the action service. */
  lemma DesiredRuleShape(rule: Rule, actionService: string, canaryService: string, port: Int32)
    ensures rule.http.None? ==> DesiredRule(rule, actionService, canaryService, port) == rule
    ensures rule.http.Some? && !HasPathTo(rule.http.value, actionService)
            ==> DesiredRule(rule, actionService, canaryService, port) == rule
    ensures rule.http.Some? && HasPathTo(rule.http.value, actionService) ==>
              var paths := rule.http.value;
              var d := DesiredRule(rule, actionService, canaryService, port);
              && d.host == rule.host
              && d.http.Some?
              && |d.http.value| == |paths| + 1
              && d.http.value[..|paths|] == paths
              && exists j :: IsLastPathTo(paths, actionService, j)
                   && d.http.value[|paths|].path == paths[j].path
                   && d.http.value[|paths|].backend == IngressBackend(canaryService, IntValue(port))
  {
  }

  /** Two paths to the action service still give a single canary path, copied from the second. */
  lemma TwoMatchingPathsOneCanary()
    ensures
      var a := HttpPath("/a", IngressBackend("stable", IntValue(80)));
      var b := HttpPath("/b", IngressBackend("stable", IntValue(80)));
      DesiredRule(Rule("host", Some([a, b])), "stable", "canary", 443)
        == Rule("host", Some([a, b, HttpPath("/b", IngressBackend("canary", IntValue(443)))]))
  {
    var a := HttpPath("/a", IngressBackend("stable", IntValue(80)));
    var b := HttpPath("/b", IngressBackend("stable", IntValue(80)));
    var c := HttpPath("/b", IngressBackend("canary", IntValue(443)));
    assert LastPathIndex([a, b], "stable") == Some(1);
    assert CanaryPath(b, "canary", 443) == c;
    assert [a, b] + [c] == [a, b, c];
  }

  /** A rule with a path to the action service always grows. */
  lemma DesiredRuleGrows(rule: Rule, actionService: string, canaryService: string, port: Int32)
    requires rule.http.Some? && HasPathTo(rule.http.value, actionService)
    ensures DesiredRule(rule, actionService, canaryService, port).http.Some?
    ensures |DesiredRule(rule, actionService, canaryService, port).http.value| == |rule.http.value| + 1
    ensures HasPathTo(DesiredRule(rule, actionService, canaryService, port).http.value, actionService)
  {
    var paths := rule.http.value;
    var j := LastPathIndex(paths, actionService).value;
    var d := DesiredRule(rule, actionService, canaryService, port);
    assert d.http.value[j] == paths[j];
  }

  /** Deriving again from a derived rule appends yet another canary path. */
  lemma RederiveAddsAnotherCanaryPath(rule: Rule, actionService: string, canaryService: string, port: Int32)
    requires rule.http.Some? && HasPathTo(rule.http.value, actionService)
    ensures
      var twice := DesiredRule(DesiredRule(rule, actionService, canaryService, port), actionService, canaryService, port);
      twice.http.Some? && |twice.http.value| == |rule.http.value| + 2
  {
  }

  /** Once some rule routes to the action service, the desired rules never equal the current ones. */
  lemma DesiredRulesDiffer(ing: Ingress, actionService: string, canaryService: string, port: Int32)
    requires HasRuleWithService(ing, actionService)
    ensures DesiredRules(ing.rules, actionService, canaryService, port) != ing.rules
  {
  }

  // ---------------------------------------------------------------------
  // Change detection

  /** Only annotations and rules take part: objects that agree on them get the same patch. */
  lemma PatchIgnoresOtherFields(a: Ingress, b: Ingress, desiredAnnotations: map<string, string>, desiredRules: seq<Rule>)
    requires Project(a) == Project(b)
    ensures CalculatePatch(a, desiredAnnotations, desiredRules) == CalculatePatch(b, desiredAnnotations, desiredRules)
  {
  }

  /** After the patch is applied, the same desired state reports no change. */
  lemma PatchedObjectUnmodified(current: Ingress, desiredAnnotations: map<string, string>, desiredRules: seq<Rule>)
    ensures
      var p := CalculatePatch(current, desiredAnnotations, desiredRules);
      !CalculatePatch(ApplyPatch(current, p.patch), desiredAnnotations, desiredRules).modified
  {
  }

  // ---------------------------------------------------------------------
  // Reconcile

  function CountWrites(actions: seq<Action>): nat {
    if actions == [] then 0
    else (if actions[0].PatchIngress? then 1 else 0) + CountWrites(actions[1..])
  }

  function CountEvents(actions: seq<Action>): nat {
    if actions == [] then 0
    else (if actions[0].RecordEvent? then 1 else 0) + CountEvents(actions[1..])
  }

  /** Both error exits return their error and touch nothing. */
  lemma ErrorExitsAreSilent(ro: Rollout, store: map<(string, string), Ingress>, desiredWeight: Int32, patchOutcome: Option<string>)
    ensures
      var step := ReconcileStep(ro, store, desiredWeight, patchOutcome);
      (ro.namespace, ro.traefik.ingress) !in store ==>
        step == Step(Failure(NotFound(ro.traefik.ingress)), [])
    ensures
      var step := ReconcileStep(ro, store, desiredWeight, patchOutcome);
      var actionService := if ro.traefik.rootService != "" then ro.traefik.rootService else ro.stableService;
      (ro.namespace, ro.traefik.ingress) in store && !HasRuleWithService(store[(ro.namespace, ro.traefik.ingress)], actionService) ==>
        step == Step(Failure(ServiceNotInRules(actionService)), [])
  {
  }

  /**
   * Each call writes at most once; a write is always the second of exactly two
   * actions, right after its one event, and its failure is returned wrapped
   * with the ingress name. No write, no event, no error from the write.
   */
  lemma AtMostOneWrite(ro: Rollout, store: map<(string, string), Ingress>, desiredWeight: Int32, patchOutcome: Option<string>)
    ensures
      var step := ReconcileStep(ro, store, desiredWeight, patchOutcome);
      && CountWrites(step.actions) <= 1
      && CountEvents(step.actions) == CountWrites(step.actions)
      && (CountWrites(step.actions) == 0 ==> step.actions == [] && !(step.status.Failure? && step.status.error.PatchFailed?))
      && (CountWrites(step.actions) == 1 ==>
            && |step.actions| == 2
            && step.actions[0] == RecordEvent(EventTypeNormal, PatchingReason, EventMessage(ro.traefik.ingress, desiredWeight))
            && step.actions[1].PatchIngress?
            && step.status == (if patchOutcome.Some? then Failure(PatchFailed(ro.traefik.ingress, patchOutcome.value)) else Success))
  {
    var step := ReconcileStep(ro, store, desiredWeight, patchOutcome);
    if step.actions != [] {
      var tail := step.actions[1..];
      assert tail[1..] == [];
      assert CountWrites(tail) == 1 && CountEvents(tail) == 0;
    }
  }

  /**
   * Past the presence check (and with an annotation map to write into), the
   * rules always change, so the no-change branch is unreachable and the call
   * records one event and issues one write of the derived state.
   */
  lemma PresenceCheckForcesWrite(ro: Rollout, store: map<(string, string), Ingress>, desiredWeight: Int32, patchOutcome: Option<string>)
    requires (ro.namespace, ro.traefik.ingress) in store
    requires HasRuleWithService(store[(ro.namespace, ro.traefik.ingress)], ActionService(ro))
    requires store[(ro.namespace, ro.traefik.ingress)].annotations.Some?
    ensures
      var ing := store[(ro.namespace, ro.traefik.ingress)];
      var desired := Projection(
        DesiredAnnotations(ing.annotations.value, ro.canaryService, desiredWeight),
        DesiredRules(ing.rules, ActionService(ro), ro.canaryService, ro.traefik.servicePort));
      ReconcileStep(ro, store, desiredWeight, patchOutcome).actions
        == [RecordEvent(EventTypeNormal, PatchingReason, EventMessage(ro.traefik.ingress, desiredWeight)),
            PatchIngress(ing.namespace, ing.name, desired)]
  {
  }

  /** The configuration and ingress of TestNoChanges (the weight annotation already set to 10). */
  function NoChangesRollout(): Rollout {
    Rollout("default", "stable-svc", "canary-svc", TraefikRouting("ingress", "", 443))
  }

  function NoChangesIngress(): Ingress {
    Ingress("default", "ingress", map[], Some(map[WeightsKey := WeightString("canary-svc", 10)]), None,
            [Rule("", Some([HttpPath("", IngressBackend("stable-svc", IntValue(443)))]))])
  }

  /**
   * As written, the TestNoChanges scenario issues a patch write, where the
   * test expects no client action at all.
   */
  lemma NoChangesScenarioWrites(patchOutcome: Option<string>)
    ensures
      var store := map[("default", "ingress") := NoChangesIngress()];
      CountWrites(ReconcileStep(NoChangesRollout(), store, 10, patchOutcome).actions) == 1
  {
    var store := map[("default", "ingress") := NoChangesIngress()];
    var ing := NoChangesIngress();
    assert ActionService(NoChangesRollout()) == "stable-svc";
    assert ing.rules[0].http.value[0].backend.serviceName == "stable-svc";
    assert HasPathTo(ing.rules[0].http.value, "stable-svc");
    assert HasRuleWithService(ing, "stable-svc");
    PresenceCheckWritesOnce(NoChangesRollout(), store, 10, patchOutcome);
  }

  /** The derived rules still route to the action service. */
  lemma DerivedKeepsService(ing: Ingress, desired: Projection, actionService: string, canaryService: string, port: Int32)
    requires HasRuleWithService(ing, actionService)
    requires desired.rules == DesiredRules(ing.rules, actionService, canaryService, port)
    ensures HasRuleWithService(ApplyPatch(ing, desired), actionService)
  {
    var i :| 0 <= i < |ing.rules| && ing.rules[i].http.Some? && HasPathTo(ing.rules[i].http.value, actionService);
    DesiredRuleGrows(ing.rules[i], actionService, canaryService, port);
    assert ApplyPatch(ing, desired).rules[i] == DesiredRule(ing.rules[i], actionService, canaryService, port);
  }

  /** Past the presence check, exactly one write. */
  lemma PresenceCheckWritesOnce(ro: Rollout, store: map<(string, string), Ingress>, desiredWeight: Int32, patchOutcome: Option<string>)
    requires (ro.namespace, ro.traefik.ingress) in store
    requires HasRuleWithService(store[(ro.namespace, ro.traefik.ingress)], ActionService(ro))
    requires store[(ro.namespace, ro.traefik.ingress)].annotations.Some?
    ensures CountWrites(ReconcileStep(ro, store, desiredWeight, patchOutcome).actions) == 1
  {
    PresenceCheckForcesWrite(ro, store, desiredWeight, patchOutcome);
    var actions := ReconcileStep(ro, store, desiredWeight, patchOutcome).actions;
    assert actions[1..][1..] == [];
    assert CountWrites(actions[1..]) == 1;
  }

  /** Even a second call on the object the first call's write produced writes again. */
  lemma SecondPassStillWrites(ro: Rollout, store: map<(string, string), Ingress>, desiredWeight: Int32, patchOutcome: Option<string>)
    requires (ro.namespace, ro.traefik.ingress) in store
    requires HasRuleWithService(store[(ro.namespace, ro.traefik.ingress)], ActionService(ro))
    requires store[(ro.namespace, ro.traefik.ingress)].annotations.Some?
    ensures
      var key := (ro.namespace, ro.traefik.ingress);
      var first := ReconcileStep(ro, store, desiredWeight, None);
      |first.actions| == 2 && first.actions[1].PatchIngress?
    ensures
      var key := (ro.namespace, ro.traefik.ingress);
      var first := ReconcileStep(ro, store, desiredWeight, None);
      var patched := ApplyPatch(store[key], first.actions[1].patch);
      CountWrites(ReconcileStep(ro, store[key := patched], desiredWeight, patchOutcome).actions) == 1
  {
    var key := (ro.namespace, ro.traefik.ingress);
    var ing := store[key];
    PresenceCheckForcesWrite(ro, store, desiredWeight, None);
    var first := ReconcileStep(ro, store, desiredWeight, None);
    var patched := ApplyPatch(ing, first.actions[1].patch);
    DerivedKeepsService(ing, first.actions[1].patch, ActionService(ro), ro.canaryService, ro.traefik.servicePort);
    var store2 := store[key := patched];
    assert store2[key] == patched;
    PresenceCheckWritesOnce(ro, store2, desiredWeight, patchOutcome);
  }

  // ---------------------------------------------------------------------
  // Corrected rule derivation: upsert the canary path instead of appending

  /** `paths` without those that forward to `svc`, in order. */
  function WithoutPathsTo(paths: seq<HttpPath>, svc: string): (r: seq<HttpPath>)
    ensures |r| <= |paths|
    ensures forall k :: 0 <= k < |r| ==> r[k].backend.serviceName != svc
    ensures forall p :: p in r <==> p in paths && p.backend.serviceName != svc
  {
    if paths == [] then []
    else WithoutPathsTo(paths[..|paths| - 1], svc)
         + (if paths[|paths| - 1].backend.serviceName == svc then [] else [paths[|paths| - 1]])
  }

  /**
   * The derivation evidently intended: a matched rule keeps its non-canary
   * paths and ends with exactly one canary path, built from the last path to
   * the action service.
   */
  function UpsertRule(rule: Rule, actionService: string, canaryService: string, port: Int32): (r: Rule)
    ensures r.host == rule.host
    ensures r.http.None? <==> rule.http.None?
    ensures rule.http.Some? && !HasPathTo(rule.http.value, actionService) ==> r == rule
  {
    match rule.http
    case None => rule
    case Some(paths) =>
      match LastPathIndex(paths, actionService)
      case None => rule
      case Some(j) => rule.(http := Some(WithoutPathsTo(paths, canaryService) + [CanaryPath(paths[j], canaryService, port)]))
  }

  function UpsertRules(rules: seq<Rule>, actionService: string, canaryService: string, port: Int32)
    : (desired: seq<Rule>)
    ensures |desired| == |rules|
    ensures forall i :: 0 <= i < |rules| ==> desired[i] == UpsertRule(rules[i], actionService, canaryService, port)
  {
    if rules == [] then []
    else [UpsertRule(rules[0], actionService, canaryService, port)]
         + UpsertRules(rules[1..], actionService, canaryService, port)
  }

  /**
   * The shape of an upserted rule: an unmatched rule is unchanged; a matched
   * rule keeps its non-canary paths in order and ends with its only canary
   * path, built from the last path to the action service.
   */
  lemma UpsertRuleShape(rule: Rule, actionService: string, canaryService: string, port: Int32)
    requires rule.http.Some? && HasPathTo(rule.http.value, actionService)
    ensures
      var paths := rule.http.value;
      var u := UpsertRule(rule, actionService, canaryService, port);
      && u.http.Some?
      && exists j :: IsLastPathTo(paths, actionService, j)
           && u.http.value == WithoutPathsTo(paths, canaryService) + [CanaryPath(paths[j], canaryService, port)]
    ensures
      var paths := rule.http.value;
      var ps := UpsertRule(rule, actionService, canaryService, port).http.value;
      && |ps| >= 1
      && ps[|ps| - 1].backend.serviceName == canaryService
      && (forall k :: 0 <= k < |ps| - 1 ==> ps[k].backend.serviceName != canaryService)
      && (forall p :: p in paths && p.backend.serviceName != canaryService ==> p in ps)
  {
    var paths := rule.http.value;
    var j := LastPathIndex(paths, actionService).value;
    var w := WithoutPathsTo(paths, canaryService);
    var ps := UpsertRule(rule, actionService, canaryService, port).http.value;
    assert ps == w + [CanaryPath(paths[j], canaryService, port)];
    assert IsLastPathTo(paths, actionService, j);
    forall k | 0 <= k < |ps| - 1
      ensures ps[k].backend.serviceName != canaryService
    {
      assert ps[k] == w[k];
    }
  }

  /**
   * TestNoChanges' fixture has no canary path yet, so even the upsert
   * rewrites its rules: the test's expectation of no client action is not
   * met under either derivation.
   */
  lemma NoChangesFixtureRewrittenByUpsert()
    ensures UpsertRules(NoChangesIngress().rules, "stable-svc", "canary-svc", 443) != NoChangesIngress().rules
  {
    var rule := NoChangesIngress().rules[0];
    assert rule.http.value[0].backend.serviceName == "stable-svc";
    UpsertRuleShape(rule, "stable-svc", "canary-svc", 443);
    var ps := UpsertRule(rule, "stable-svc", "canary-svc", 443).http.value;
    assert ps[|ps| - 1].backend.serviceName == "canary-svc";
    assert UpsertRules(NoChangesIngress().rules, "stable-svc", "canary-svc", 443)[0] != rule;
  }

  /** The path value of the last path to `svc`. */
  function LastPathTo(paths: seq<HttpPath>, svc: string): Option<HttpPath> {
    match LastPathIndex(paths, svc)
    case None => None
    case Some(j) => Some(paths[j])
  }

  lemma LastPathToSnoc(init: seq<HttpPath>, last: HttpPath, svc: string)
    ensures LastPathTo(init + [last], svc)
            == if last.backend.serviceName == svc then Some(last) else LastPathTo(init, svc)
  {
  }

  lemma WithoutPathsToSnoc(init: seq<HttpPath>, last: HttpPath, svc: string)
    ensures WithoutPathsTo(init + [last], svc)
            == WithoutPathsTo(init, svc) + (if last.backend.serviceName == svc then [] else [last])
  {
  }

  /** Paths that already avoid `svc` pass the filter unchanged. */
  lemma {:induction false} WithoutPathsToKeepsClean(paths: seq<HttpPath>, svc: string)
    requires forall k :: 0 <= k < |paths| ==> paths[k].backend.serviceName != svc
    ensures WithoutPathsTo(paths, svc) == paths
  {
    if paths != [] {
      var init := paths[..|paths| - 1];
      var last := paths[|paths| - 1];
      assert paths == init + [last];
      WithoutPathsToKeepsClean(init, svc);
      WithoutPathsToSnoc(init, last, svc);
    }
  }

  lemma WithoutPathsToIdempotent(paths: seq<HttpPath>, svc: string)
    ensures WithoutPathsTo(WithoutPathsTo(paths, svc), svc) == WithoutPathsTo(paths, svc)
  {
    WithoutPathsToKeepsClean(WithoutPathsTo(paths, svc), svc);
  }

  /** Dropping the canary paths keeps the last path to a different action service. */
  lemma {:induction false} LastPathToWithout(paths: seq<HttpPath>, actionService: string, canaryService: string)
    requires actionService != canaryService
    ensures LastPathTo(WithoutPathsTo(paths, canaryService), actionService) == LastPathTo(paths, actionService)
  {
    if paths != [] {
      var init := paths[..|paths| - 1];
      var last := paths[|paths| - 1];
      assert paths == init + [last];
      LastPathToWithout(init, actionService, canaryService);
      WithoutPathsToSnoc(init, last, canaryService);
      LastPathToSnoc(init, last, actionService);
      var w := WithoutPathsTo(init, canaryService);
      if last.backend.serviceName == canaryService {
        assert WithoutPathsTo(paths, canaryService) == w + [] == w;
      } else {
        assert WithoutPathsTo(paths, canaryService) == w + [last];
        LastPathToSnoc(w, last, actionService);
      }
    }
  }

  /** Re-deriving from an upserted rule changes nothing. */
  lemma UpsertRuleIdempotent(rule: Rule, actionService: string, canaryService: string, port: Int32)
    requires actionService != canaryService
    ensures
      var once := UpsertRule(rule, actionService, canaryService, port);
      UpsertRule(once, actionService, canaryService, port) == once
  {
    if rule.http.Some? && LastPathIndex(rule.http.value, actionService).Some? {
      var paths := rule.http.value;
      var j := LastPathIndex(paths, actionService).value;
      var c := CanaryPath(paths[j], canaryService, port);
      var w := WithoutPathsTo(paths, canaryService);
      var ps := w + [c];
      assert ps[..|ps| - 1] == w;
      assert LastPathTo(ps, actionService) == LastPathTo(w, actionService);
      LastPathToWithout(paths, actionService, canaryService);
      WithoutPathsToIdempotent(paths, canaryService);
      assert WithoutPathsTo(ps, canaryService) == w;
    }
  }

  /**
   * With the upsert, a second pass at the same weight over the object the
   * first pass's patch produced detects no change, so it issues no write.
   */
  lemma UpsertSecondPassUnmodified(ing: Ingress, actionService: string, canaryService: string, port: Int32, desiredWeight: Int32)
    requires ing.annotations.Some?
    requires actionService != canaryService
    ensures
      var first := CalculatePatch(ing,
        DesiredAnnotations(ing.annotations.value, canaryService, desiredWeight),
        UpsertRules(ing.rules, actionService, canaryService, port));
      var patched := ApplyPatch(ing, first.patch);
      !CalculatePatch(patched,
        DesiredAnnotations(patched.annotations.value, canaryService, desiredWeight),
        UpsertRules(patched.rules, actionService, canaryService, port)).modified
  {
    var ann := DesiredAnnotations(ing.annotations.value, canaryService, desiredWeight);
    var rules := UpsertRules(ing.rules, actionService, canaryService, port);
    forall i | 0 <= i < |rules|
      ensures UpsertRules(rules, actionService, canaryService, port)[i] == rules[i]
    {
      UpsertRuleIdempotent(ing.rules[i], actionService, canaryService, port);
    }
    assert UpsertRules(rules, actionService, canaryService, port) == rules;
    assert DesiredAnnotations(ann, canaryService, desiredWeight) == ann;
  }
}
