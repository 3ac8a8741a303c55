/** What a planned bundle contains, told from the input alone. */
module BundleContent {
  import opened Wrappers
  import opened Settings
  import opened Objects
  import opened Generator
  import opened Closure
  import Crds = CrdSplitter

  const DEPLOYMENT_KEY := ObjKey(DeploymentKind, "traefik")
  const ROLE_KEY := ObjKey(ClusterRoleKind, "traefik-ingress-controller")
  const POLICY_KEY := ObjKey(NetworkPolicyKind, "traefik-allow-ingress")
  const BUDGET_KEY := ObjKey(PodDisruptionBudgetKind, "traefik")

  /** The bundle has its five connected objects, each of its kind. */
  ghost predicate Complete(content: Content) {
    && DEPLOYMENT_KEY in content && content[DEPLOYMENT_KEY].Deployment?
    && SERVICE_KEY in content && content[SERVICE_KEY].Service?
    && ROLE_KEY in content && content[ROLE_KEY].ClusterRole?
    && POLICY_KEY in content && content[POLICY_KEY].NetworkPolicy?
    && BUDGET_KEY in content && content[BUDGET_KEY].PodDisruptionBudget?
  }

  // ---- CRDs

  /** Every name the stream defines has its CRD, with the payload of its last definition, beside the fixed objects. */
  ghost predicate HoldsCrds(content: Content, docs: seq<Crds.Document>) {
    && (forall i: nat, name: string :: Crds.LastDefinition(docs, i, name) ==>
          Lookup(content, ObjKey(CrdKind, name)) == Some(CustomResourceDefinition(name, docs[i].payload)))
    && (forall k :: k in content && content[k].CustomResourceDefinition? ==>
          content[k].name in Crds.DefinedNames(docs))
    && |content| == 8 + |Crds.DefinedNames(docs)|
  }

  lemma {:induction false} KeysSize(names: set<string>, files: Files)
    requires KeysDistinct(files) && names <= files.Keys
    ensures |set f | f in names :: KeyOf(files[f])| == |names|
  {
    if names != {} {
      var g :| g in names;
      var rest := names - {g};
      KeysSize(rest, files);
      assert (set f | f in names :: KeyOf(files[f])) == (set f | f in rest :: KeyOf(files[f])) + {KeyOf(files[g])};
    }
  }

  lemma ByKeySize(files: Files)
    requires KeysDistinct(files)
    ensures |ByKey(files)| == |files|
  {
    KeysSize(files.Keys, files);
    assert ByKey(files).Keys == set f | f in files.Keys :: KeyOf(files[f]);
  }

  /** The CRD files among all files of a bundle. */
  ghost predicate CrdFiles(files: Files, crds: Files) {
    && |files| == 8 + |crds|
    && (forall f :: f in crds ==> f in files && files[f] == crds[f])
    && (forall f :: f in files && files[f].CustomResourceDefinition? ==> f in crds)
  }

  lemma MergedCrdFiles(files: Files, crds: Files, names: nat -> string, objects: nat -> K8sObject)
    requires Merges(files, crds, names, objects, FIXED_COUNT)
    requires forall i: nat :: i < FIXED_COUNT ==> !objects(i).CustomResourceDefinition?
    ensures CrdFiles(files, crds)
  {
  }

  lemma FixedObjectIsNoCrd(cfg: Config, image: string, i: nat)
    ensures !FixedObject(cfg, image, i).CustomResourceDefinition?
  {
  }

  lemma BundleCrds(cfg: Config, build: BuildEnv)
    requires Documents(cfg, build).Success?
    ensures CrdFiles(Documents(cfg, build).value, Crds.Collected(build.crds))
  {
    hide Documents, FixedObject;
    DocumentsSucceedExactly(cfg, build);
    var names, objects, crds := BundleParts(cfg, build);
    forall i: nat | i < FIXED_COUNT ensures !objects(i).CustomResourceDefinition? {
      FixedObjectIsNoCrd(cfg, build.image.value, i);
    }
    MergedCrdFiles(Documents(cfg, build).value, crds, names, objects);
  }

  lemma FilesHoldCrds(files: Files, crds: Files, docs: seq<Crds.Document>)
    requires KeysDistinct(files) && crds == Crds.Collected(docs) && CrdFiles(files, crds)
    ensures HoldsCrds(ByKey(files), docs)
  {
    ByKeySize(files);
    Crds.OneFilePerName(docs);
    forall i: nat, name: string | Crds.LastDefinition(docs, i, name)
      ensures Lookup(ByKey(files), ObjKey(CrdKind, name)) == Some(CustomResourceDefinition(name, docs[i].payload))
    {
      Crds.LastDefinitionWins(docs, i, name);
      ByKeyKeeps(files, Crds.FileOf(name));
    }
    forall k | k in ByKey(files) && ByKey(files)[k].CustomResourceDefinition?
      ensures ByKey(files)[k].name in Crds.DefinedNames(docs)
    {
      var f :| f in files && KeyOf(files[f]) == k;
      ByKeyKeeps(files, f);
      CrdFileIsDefined(docs, f);
    }
  }

  lemma CrdFileIsDefined(docs: seq<Crds.Document>, f: string)
    requires f in Crds.Collected(docs)
    ensures Crds.Collected(docs)[f].CustomResourceDefinition? &&
            Crds.Collected(docs)[f].name in Crds.DefinedNames(docs)
  {
    Crds.CollectedFilesNameTheirCrds(docs);
    Crds.CollectedFiles(docs, f);
    var i: nat :| i < |docs| && docs[i].Document? && Crds.Defines(docs[i], docs[i].name) &&
                  f == Crds.FileOf(docs[i].name);
    Crds.FileOfInjective(docs[i].name, Crds.Collected(docs)[f].name);
  }

  /** Whatever the input, the bundle holds exactly the CRDs of the stream beside its eight fixed objects. */
  lemma PlanHoldsCrds(input: Input)
    requires Plan(input).Success?
    ensures HoldsCrds(Plan(input).value, input.build.crds)
  {
    var cfg := Merged(input.provided).value;
    BundleKeysDistinct(cfg, input.build);
    BundleCrds(cfg, input.build);
    FilesHoldCrds(Documents(cfg, input.build).value, Crds.Collected(input.build.crds), input.build.crds);
  }

  // ---- the user's configuration

  /** The deployment and the ingress class are what the user has configured, or the defaults where nothing is set. */
  ghost predicate FollowsConfiguration(content: Content, provided: ProviderConfig)
    requires Complete(content)
  {
    var d, user := content[DEPLOYMENT_KEY], provided.Decoded?;
    && d.replicas == (if user && provided.spec.replicas > 0 then provided.spec.replicas else 2)
    && (forall l :: LogLevel(l) in d.args <==>
          l == if user && provided.spec.logLevel != "" then provided.spec.logLevel else "Info")
    && (forall p :: EnableProvider(p) in d.args <==>
          && !p.Unset? && !p.Other?
          && p == if user && provided.spec.provider != Unset then provided.spec.provider else KubernetesIngress)
    && (forall on :: ApiInsecure(on) in d.args <==> on == (user && provided.spec.dashboard))
    && (forall on :: ApiDashboard(on) in d.args <==> on == (user && provided.spec.dashboard))
    && ((exists n :: ContainerPort(n, 9000) in d.ports) <==> user && provided.spec.dashboard)
    && (forall c :: ObjKey(IngressClassKind, c) in content <==>
          c == if user && provided.spec.provider == KubernetesIngressNGINX then "nginx" else "traefik")
  }

  lemma ApiArgs(cfg: Config, on: bool)
    ensures ApiInsecure(on) in Args(cfg) <==> on == cfg.dashboard
    ensures ApiDashboard(on) in Args(cfg) <==> on == cfg.dashboard
  {
    assert Args(cfg)[0] == ApiInsecure(cfg.dashboard) && Args(cfg)[1] == ApiDashboard(cfg.dashboard);
  }

  lemma OneOfItsKind(content: Content, objects: nat -> K8sObject, i: nat, k: ObjKey)
    requires HoldsFixed(content, objects) && i < FIXED_COUNT && k in content
    requires forall j: nat :: j < FIXED_COUNT ==> KindOf(objects(j)) == FixedKind(j)
    requires KindOf(content[k]) == FixedKind(i)
    ensures content[k] == objects(i)
  {
    if content[k].CustomResourceDefinition? {
      KindHasOneSlot(i, i);
    } else {
      var j: nat :| j < FIXED_COUNT && content[k] == objects(j);
      KindHasOneSlot(i, j);
    }
  }

  lemma KindsAreFixed(cfg: Config, image: string)
    ensures forall j: nat :: j < FIXED_COUNT ==> KindOf(FixedObjects(cfg, image)(j)) == FixedKind(j)
  {
    forall j: nat | j < FIXED_COUNT ensures KindOf(FixedObjects(cfg, image)(j)) == FixedKind(j) {
      FixedObjectKind(cfg, image, j);
    }
  }

  /** Only one ingress class is in the bundle. */
  lemma OneIngressClass(content: Content, cfg: Config, image: string, objects: nat -> K8sObject, c: string)
    requires objects == FixedObjects(cfg, image) && HoldsFixed(content, objects)
    ensures ObjKey(IngressClassKind, c) in content <==> c == cfg.IngressClassName()
  {
    HeldAt(content, objects, 5, IngressClassOf(cfg));
    KindsAreFixed(cfg, image);
    if ObjKey(IngressClassKind, c) in content {
      OneOfItsKind(content, objects, 5, ObjKey(IngressClassKind, c));
    }
  }

  lemma ConfigurationIsFollowed(content: Content, provided: ProviderConfig, cfg: Config, image: string)
    requires Merged(provided) == Success(cfg) && Complete(content)
    requires content[DEPLOYMENT_KEY] == DeploymentOf(cfg, image)
    requires forall c :: ObjKey(IngressClassKind, c) in content <==> c == cfg.IngressClassName()
    ensures FollowsConfiguration(content, provided)
  {
    hide Args, Ports, Complete;
    forall l ensures LogLevel(l) in Args(cfg) <==> l == cfg.logLevel {
      OneLogLevel(cfg, l);
    }
    forall p ensures EnableProvider(p) in Args(cfg) <==> !cfg.provider.Other? && p == cfg.provider {
      OneProvider(cfg, p);
    }
    forall on ensures (ApiInsecure(on) in Args(cfg) <==> on == cfg.dashboard) &&
                      (ApiDashboard(on) in Args(cfg) <==> on == cfg.dashboard) {
      ApiArgs(cfg, on);
    }
    EntryPointsAreThePorts(cfg);
  }

  // ---- how the objects fit together

  /** The pods of Traefik and no others. */
  ghost predicate SelectsTraefik(selector: Labels) {
    forall labels :: Selects(selector, labels) <==>
                       Lookup(labels, AppName) == Some("traefik") && Lookup(labels, AppInstance) == Some("traefik")
  }

  /** Which entry point a port of the service is for. */
  function EntryPointFor(port: int): string {
    if port == 80 then "web" else "websecure"
  }

  ghost predicate Listens(ports: seq<ServicePort>, n: int) {
    exists p :: p in ports && p.number == n
  }

  ghost predicate Reaches(d: K8sObject, target: string, entryPoint: string)
    requires d.Deployment?
  {
    exists n :: ContainerPort(target, n) in d.ports && EntryPoint(entryPoint, n) in d.args
  }

  ghost predicate AnswersPing(args: seq<Arg>, port: int) {
    exists e :: PingEntryPoint(e) in args && EntryPoint(e, port) in args
  }

  /**
   Service, probes, selectors, disruption budget and image: port 80 of the service reaches entry point web and 443
   websecure, the three probes ask the entry point that answers pings, and the budget neither allows zero pods nor asks
   for more than there are.
   */
  ghost predicate WellConnected(content: Content, image: string)
    requires Complete(content)
  {
    var d, svc, budget := content[DEPLOYMENT_KEY], content[SERVICE_KEY], content[BUDGET_KEY];
    && d.image == image
    && SelectsTraefik(d.selector) && SelectsTraefik(svc.selector)
    && SelectsTraefik(content[POLICY_KEY].selector) && SelectsTraefik(budget.selector)
    && Selects(map[AppName := "traefik", AppInstance := "traefik", ToApiServer := "allowed", ToDns := "allowed"],
               d.podLabels)
    && (forall n :: Listens(svc.servicePorts, n) <==> n == 80 || n == 443)
    && (forall p :: p in svc.servicePorts ==> Reaches(d, p.targetPort, EntryPointFor(p.number)))
    && |d.probePorts| == 3 && (forall p :: p in d.probePorts ==> AnswersPing(d.args, p))
    && EntryPoint("web", 8000) in d.args && EntryPoint("websecure", 8443) in d.args
    && EntryPoint("metrics", 9100) in d.args && MetricsEntryPoint("metrics") in d.args
    && 1 <= budget.minAvailable <= d.replicas
  }

  lemma AppSelectorSelectsTraefik()
    ensures SelectsTraefik(APP_SELECTOR)
  {
  }

  lemma FixedArgs(cfg: Config)
    ensures PingEntryPoint("web") in Args(cfg) && MetricsEntryPoint("metrics") in Args(cfg)
    ensures EntryPoint("web", 8000) in Args(cfg) && EntryPoint("websecure", 8443) in Args(cfg)
    ensures EntryPoint("metrics", 9100) in Args(cfg)
    ensures ContainerPort("web", 8000) in Ports(cfg) && ContainerPort("websecure", 8443) in Ports(cfg)
  {
    var args, ports := Args(cfg), Ports(cfg);
    assert args[3] == PingEntryPoint("web") && args[5] == MetricsEntryPoint("metrics");
    assert args[6] == EntryPoint("web", 8000) && args[7] == EntryPoint("websecure", 8443);
    assert args[8] == EntryPoint("metrics", 9100);
    assert ports[0] == ContainerPort("web", 8000) && ports[1] == ContainerPort("websecure", 8443);
  }

  lemma ServicePorts(d: K8sObject)
    requires d.Deployment?
    requires Reaches(d, "web", "web") && Reaches(d, "websecure", "websecure")
    ensures forall n :: Listens(ServiceOf().servicePorts, n) <==> n == 80 || n == 443
    ensures forall p :: p in ServiceOf().servicePorts ==> Reaches(d, p.targetPort, EntryPointFor(p.number))
  {
    var ports := ServiceOf().servicePorts;
    assert ports[0] == ServicePort("web", 80, "web") && ports[1] == ServicePort("websecure", 443, "websecure");
  }

  lemma ObjectsFit(content: Content, cfg: Config, image: string)
    requires Complete(content) && cfg.replicas >= 1
    requires content[DEPLOYMENT_KEY] == DeploymentOf(cfg, image) && content[SERVICE_KEY] == ServiceOf()
    requires content[POLICY_KEY] == NetworkPolicyOf() && content[BUDGET_KEY] == PodDisruptionBudgetOf()
    ensures WellConnected(content, image)
  {
    hide Args, Ports, SelectsTraefik, Reaches, AnswersPing, Listens;
    var d := content[DEPLOYMENT_KEY];
    AppSelectorSelectsTraefik();
    FixedArgs(cfg);
    Connections(d, cfg, image);
    ServicePorts(d);
  }

  lemma Connections(d: K8sObject, cfg: Config, image: string)
    requires d == DeploymentOf(cfg, image)
    ensures Reaches(d, "web", "web") && Reaches(d, "websecure", "websecure")
    ensures |d.probePorts| == 3 && forall p :: p in d.probePorts ==> AnswersPing(d.args, p)
  {
    hide Args, Ports;
    FixedArgs(cfg);
  }

  // ---- what the role grants

  predicate RuleGrants(r: Rule, group: string, res: string, verb: string) {
    group in r.apiGroups && res in r.resources && verb in r.verbs
  }

  ghost predicate Grants(rules: seq<Rule>, group: string, res: string, verb: string) {
    exists r :: r in rules && RuleGrants(r, group, res, verb)
  }

  const READS := {"get", "list", "watch"}

  const TRAEFIK_RESOURCES :=
    {"ingressroutes", "ingressroutetcps", "ingressrouteudps", "middlewares", "middlewaretcps", "serverstransports",
     "serverstransporttcps", "tlsoptions", "tlsstores", "traefikservices"}

  predicate ReadsCore(group: string, res: string, verb: string) {
    group == "" && res in {"services", "endpoints", "secrets", "nodes"} && verb in READS
  }

  predicate ReadsSlices(group: string, res: string, verb: string) {
    group == "discovery.k8s.io" && res == "endpointslices" && verb in READS
  }

  predicate ReadsIngresses(group: string, res: string, verb: string) {
    group in {"extensions", "networking.k8s.io"} && res in {"ingresses", "ingressclasses"} && verb in READS
  }

  predicate WritesStatus(group: string, res: string, verb: string) {
    group in {"extensions", "networking.k8s.io"} && res == "ingresses/status" && verb == "update"
  }

  predicate ReadsTraefik(group: string, res: string, verb: string) {
    group == "traefik.io" && res in TRAEFIK_RESOURCES && verb in READS
  }

  /** What Traefik needs under any provider: to read what it routes to, and to write back the status of ingresses. */
  predicate NeededAlways(group: string, res: string, verb: string) {
    || ReadsCore(group, res, verb) || ReadsSlices(group, res, verb) || ReadsIngresses(group, res, verb)
    || WritesStatus(group, res, verb) || ReadsTraefik(group, res, verb)
  }

  /** The NGINX provider also selects namespaces and looks at single pods. */
  predicate NeededForNginx(group: string, res: string, verb: string) {
    group == "" && ((res == "namespaces" && verb in READS) || (res == "pods" && verb == "get"))
  }

  lemma ReadVerbs(verb: string)
    ensures verb in READ <==> verb in READS
  {
  }

  lemma CoreRule(group: string, res: string, verb: string)
    ensures RuleGrants(BASE_RULES[0], group, res, verb) <==> ReadsCore(group, res, verb)
  {
    ReadVerbs(verb);
  }

  lemma SliceRule(group: string, res: string, verb: string)
    ensures RuleGrants(BASE_RULES[1], group, res, verb) <==> ReadsSlices(group, res, verb)
  {
    ReadVerbs(verb);
  }

  lemma IngressRule(group: string, res: string, verb: string)
    ensures RuleGrants(BASE_RULES[2], group, res, verb) <==> ReadsIngresses(group, res, verb)
  {
    ReadVerbs(verb);
  }

  lemma StatusRule(group: string, res: string, verb: string)
    ensures RuleGrants(BASE_RULES[3], group, res, verb) <==> WritesStatus(group, res, verb)
  {
  }

  lemma TraefikRule(group: string, res: string, verb: string)
    ensures RuleGrants(BASE_RULES[4], group, res, verb) <==> ReadsTraefik(group, res, verb)
  {
    ReadVerbs(verb);
  }

  lemma GrantsOfFive(rules: seq<Rule>, group: string, res: string, verb: string)
    requires |rules| == 5
    ensures Grants(rules, group, res, verb) <==>
            || RuleGrants(rules[0], group, res, verb) || RuleGrants(rules[1], group, res, verb)
            || RuleGrants(rules[2], group, res, verb) || RuleGrants(rules[3], group, res, verb)
            || RuleGrants(rules[4], group, res, verb)
  {
  }

  lemma BaseRulesGrantExactly(group: string, res: string, verb: string)
    ensures Grants(BASE_RULES, group, res, verb) <==> NeededAlways(group, res, verb)
  {
    hide RuleGrants, ReadsCore, ReadsSlices, ReadsIngresses, WritesStatus, ReadsTraefik;
    GrantsOfFive(BASE_RULES, group, res, verb);
    CoreRule(group, res, verb);
    SliceRule(group, res, verb);
    IngressRule(group, res, verb);
    StatusRule(group, res, verb);
    TraefikRule(group, res, verb);
  }

  lemma GrantsAppend(a: seq<Rule>, b: seq<Rule>, group: string, res: string, verb: string)
    ensures Grants(a + b, group, res, verb) <==> Grants(a, group, res, verb) || Grants(b, group, res, verb)
  {
  }

  lemma NginxRulesGrantExactly(group: string, res: string, verb: string)
    ensures Grants([Rule([""], ["namespaces"], READ), Rule([""], ["pods"], ["get"])], group, res, verb) <==>
            NeededForNginx(group, res, verb)
  {
    var rules := [Rule([""], ["namespaces"], READ), Rule([""], ["pods"], ["get"])];
    ReadVerbs(verb);
    assert RuleGrants(rules[0], group, res, verb) <==> group == "" && res == "namespaces" && verb in READS;
    assert RuleGrants(rules[1], group, res, verb) <==> group == "" && res == "pods" && verb == "get";
  }

  /** The role grants what the running provider needs and nothing else. */
  ghost predicate GrantsExactly(rules: seq<Rule>, nginx: bool) {
    forall group, res, verb :: Grants(rules, group, res, verb) <==>
                                 NeededAlways(group, res, verb) || (nginx && NeededForNginx(group, res, verb))
  }

  lemma RoleGrantsExactly(cfg: Config)
    ensures GrantsExactly(RoleRules(cfg), cfg.provider == KubernetesIngressNGINX)
  {
    hide Grants, NeededAlways, NeededForNginx;
    forall group, res, verb
      ensures Grants(RoleRules(cfg), group, res, verb) <==>
              || NeededAlways(group, res, verb)
              || (cfg.provider == KubernetesIngressNGINX && NeededForNginx(group, res, verb))
    {
      BaseRulesGrantExactly(group, res, verb);
      NginxRulesGrantExactly(group, res, verb);
      GrantsAppend(BASE_RULES, [Rule([""], ["namespaces"], READ), Rule([""], ["pods"], ["get"])], group, res, verb);
      assert BASE_RULES + [] == BASE_RULES;
    }
  }

  // ---- together

  /** What the source of a bundle says about it. */
  ghost predicate MatchesInput(content: Content, input: Input) {
    && Complete(content)
    && HoldsCrds(content, input.build.crds)
    && FollowsConfiguration(content, input.provided)
    && input.build.image.Some? && WellConnected(content, input.build.image.value)
    && GrantsExactly(content[ROLE_KEY].rules,
                     input.provided.Decoded? && input.provided.spec.provider == KubernetesIngressNGINX)
  }

  /** The five objects that are read here. */
  lemma HeldObjects(content: Content, cfg: Config, image: string, objects: nat -> K8sObject)
    requires objects == FixedObjects(cfg, image) && HoldsFixed(content, objects)
    ensures Complete(content)
    ensures content[DEPLOYMENT_KEY] == DeploymentOf(cfg, image) && content[SERVICE_KEY] == ServiceOf()
    ensures content[POLICY_KEY] == NetworkPolicyOf() && content[BUDGET_KEY] == PodDisruptionBudgetOf()
    ensures content[ROLE_KEY] == ClusterRoleOf(cfg)
  {
    hide HoldsFixed;
    HeldAt(content, objects, 1, ClusterRoleOf(cfg));
    HeldAt(content, objects, 3, DeploymentOf(cfg, image));
    HeldAt(content, objects, 4, ServiceOf());
    HeldAt(content, objects, 6, NetworkPolicyOf());
    HeldAt(content, objects, 7, PodDisruptionBudgetOf());
  }

  /** Every planned bundle is what its input says, object by object. */
  lemma PlanMatchesInput(input: Input)
    requires Plan(input).Success?
    ensures MatchesInput(Plan(input).value, input)
  {
    hide Plan, HoldsFixed, Complete, FollowsConfiguration, WellConnected, GrantsExactly, HoldsCrds, FixedObject;
    hide RoleRules;
    PlanHoldsFixed(input);
    PlanHoldsCrds(input);
    var content, cfg, image := Plan(input).value, Merged(input.provided).value, input.build.image.value;
    HeldObjects(content, cfg, image, FixedObjects(cfg, image));
    forall c ensures ObjKey(IngressClassKind, c) in content <==> c == cfg.IngressClassName() {
      OneIngressClass(content, cfg, image, FixedObjects(cfg, image), c);
    }
    ConfigurationIsFollowed(content, input.provided, cfg, image);
    ObjectsFit(content, cfg, image);
    RoleGrantsExactly(cfg);
  }
}
