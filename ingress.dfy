/**
 * The slice of Kubernetes' extensions/v1beta1 Ingress that the Traefik
 * reconciler reads and writes, as values, and the ingress helper it calls.
 */
module IngressModel {
  import opened Wrappers
  import opened GoFmt

  /** intstr.IntOrString: a numeric or a named service port. */
  datatype IntOrString = IntValue(intVal: Int32) | StringValue(strVal: string)

  datatype IngressBackend = IngressBackend(serviceName: string, servicePort: IntOrString)

  /** HTTPIngressPath: a path pattern and the backend it forwards to. */
  datatype HttpPath = HttpPath(path: string, backend: IngressBackend)

  /** IngressRule: a host and, when it has an HTTP section, its paths (None is a nil HTTP pointer). */
  datatype Rule = Rule(host: string, http: Option<seq<HttpPath>>)

  /**
   * An Ingress object. `annotations` is None for a nil map; `labels` and
   * `defaultBackend` stand for every field the reconciler never compares.
   */
  datatype Ingress = Ingress(
    namespace: string,
    name: string,
    labels: map<string, string>,
    annotations: Option<map<string, string>>,
    defaultBackend: Option<IngressBackend>,
    rules: seq<Rule>)

  /** Some path in `paths` forwards to service `svc`. */
  predicate HasPathTo(paths: seq<HttpPath>, svc: string) {
    exists j :: 0 <= j < |paths| && paths[j].backend.serviceName == svc
  }

  /**
   * ingressutil.HasRuleWithService (its source is not part of this model):
   * some rule with an HTTP section has a path whose backend is `svc`.
   */
  predicate HasRuleWithService(ing: Ingress, svc: string) {
    exists i :: 0 <= i < |ing.rules| && ing.rules[i].http.Some? && HasPathTo(ing.rules[i].http.value, svc)
  }
}
