/** Every reference between objects of a bundle resolves inside the same bundle. */
module Closure {
  import opened Settings
  import opened Objects
  import opened Generator

  predicate Selects(selector: Labels, labels: Labels) {
    forall k :: k in selector ==> k in labels && labels[k] == selector[k]
  }

  ghost predicate EntryPointDefined(args: seq<Arg>, name: string) {
    exists port :: EntryPoint(name, port) in args
  }

  /** What one argument refers to exists. */
  ghost predicate ArgResolves(content: Content, args: seq<Arg>, a: Arg) {
    match a
    case PingEntryPoint(e) => EntryPointDefined(args, e)
    case MetricsEntryPoint(e) => EntryPointDefined(args, e)
    case ProviderClass(p, c) =>
      EnableProvider(p) in args && ObjKey(IngressClassKind, c) in content
    case ProviderService(p, n, s) =>
      EnableProvider(p) in args && n == NAMESPACE && ObjKey(ServiceKind, s) in content
    case _ => true
  }

  ghost predicate DeploymentResolves(content: Content, d: K8sObject)
    requires d.Deployment?
  {
    && Selects(d.selector, d.podLabels)
    && ObjKey(ServiceAccountKind, d.serviceAccount) in content
    && (forall n, p :: EntryPoint(n, p) in d.args <==> ContainerPort(n, p) in d.ports)
    && (forall p :: p in d.probePorts ==> exists n :: ContainerPort(n, p) in d.ports)
    && (forall a :: a in d.args ==> ArgResolves(content, d.args, a))
  }

  ghost predicate HasPort(d: K8sObject, name: string)
    requires d.Deployment?
  {
    exists n :: ContainerPort(name, n) in d.ports
  }

  /** What one object refers to exists, pods being those of the bundle's deployments. */
  ghost predicate Resolves(content: Content, o: K8sObject) {
    match o
    case ClusterRoleBinding(_, role, subject) =>
      ObjKey(ClusterRoleKind, role) in content && ObjKey(ServiceAccountKind, subject) in content
    case Deployment(_, _, _, _, _, _, _, _, _) =>
      DeploymentResolves(content, o)
    case Service(_, selector, ports) =>
      exists k :: && k in content && content[k].Deployment? && Selects(selector, content[k].podLabels)
                  && forall p :: p in ports ==> HasPort(content[k], p.targetPort)
    case NetworkPolicy(_, selector) =>
      exists k :: k in content && content[k].Deployment? && Selects(selector, content[k].podLabels)
    case PodDisruptionBudget(_, minimum, selector) =>
      exists k :: && k in content && content[k].Deployment? && Selects(selector, content[k].podLabels)
                  && minimum <= content[k].replicas
    case _ => true
  }

  ghost predicate Closed(content: Content) {
    forall k :: k in content ==> KeyOf(content[k]) == k && Resolves(content, content[k])
  }

  /** Content made of numbered objects and CRDs, each under its own key. */
  ghost predicate HoldsFixed(content: Content, objects: nat -> K8sObject) {
    && (forall i: nat :: i < FIXED_COUNT ==> KeyOf(objects(i)) in content && content[KeyOf(objects(i))] == objects(i))
    && (forall k :: k in content ==>
          content[k].CustomResourceDefinition? || exists i: nat :: i < FIXED_COUNT && content[k] == objects(i))
    && (forall k :: k in content ==> KeyOf(content[k]) == k)
  }

  lemma ByKeyKeeps(files: Files, f: string)
    requires KeysDistinct(files) && f in files
    ensures KeyOf(files[f]) in ByKey(files) && ByKey(files)[KeyOf(files[f])] == files[f]
  {
  }

  lemma ByKeyHoldsFixed(files: Files, crds: Files, names: nat -> string, objects: nat -> K8sObject)
    requires KeysDistinct(files) && Merges(files, crds, names, objects, FIXED_COUNT)
    requires forall f :: f in crds ==> crds[f].CustomResourceDefinition?
    ensures HoldsFixed(ByKey(files), objects)
  {
    forall i: nat | i < FIXED_COUNT
      ensures KeyOf(objects(i)) in ByKey(files) && ByKey(files)[KeyOf(objects(i))] == objects(i)
    {
      ByKeyKeeps(files, names(i));
    }
    forall k | k in ByKey(files) && !ByKey(files)[k].CustomResourceDefinition?
      ensures exists i: nat :: i < FIXED_COUNT && ByKey(files)[k] == objects(i)
    {
      var f :| f in files && KeyOf(files[f]) == k;
      var i: nat :| i < FIXED_COUNT && f == names(i);
      assert files[names(i)] == objects(i);
    }
  }

  lemma DocumentsHoldFixed(cfg: Config, build: BuildEnv)
    requires Documents(cfg, build).Success? && build.image.Some?
    ensures KeysDistinct(Documents(cfg, build).value)
    ensures HoldsFixed(ByKey(Documents(cfg, build).value), FixedObjects(cfg, build.image.value))
  {
    BundleKeysDistinct(cfg, build);
    var names, objects, crds := BundleParts(cfg, build);
    ByKeyHoldsFixed(Documents(cfg, build).value, crds, names, objects);
  }

  lemma PlanHoldsFixed(input: Input)
    requires Plan(input).Success?
    ensures Merged(input.provided).Success? && input.build.image.Some?
    ensures HoldsFixed(Plan(input).value, FixedObjects(Merged(input.provided).value, input.build.image.value))
  {
    var cfg := Merged(input.provided).value;
    DocumentsSucceedExactly(cfg, input.build);
    DocumentsHoldFixed(cfg, input.build);
  }

  lemma PortsAreEntryPoints(cfg: Config, n: string, p: int)
    requires ContainerPort(n, p) in Ports(cfg)
    ensures EntryPoint(n, p) in Args(cfg) && (p == 9000 ==> cfg.dashboard)
  {
    var j :| 0 <= j < |Ports(cfg)| && Ports(cfg)[j] == ContainerPort(n, p);
    assert Args(cfg)[if j < 3 then 6 + j else 10] == EntryPoint(n, p);
  }

  lemma EntryPointsArePorts(cfg: Config, n: string, p: int)
    requires EntryPoint(n, p) in Args(cfg)
    ensures ContainerPort(n, p) in Ports(cfg)
  {
    var j :| 0 <= j < |Args(cfg)| && Args(cfg)[j] == EntryPoint(n, p);
    assert 6 <= j <= 8 || (cfg.dashboard && j == 10);
    assert Ports(cfg)[if j < 9 then j - 6 else 3] == ContainerPort(n, p);
  }

  /**
   The entry points Traefik opens are the ports the container declares, and 9000 is among them exactly for the
   dashboard.
   */
  lemma EntryPointsAreThePorts(cfg: Config)
    ensures forall n, p :: EntryPoint(n, p) in Args(cfg) <==> ContainerPort(n, p) in Ports(cfg)
    ensures (exists n :: ContainerPort(n, 9000) in Ports(cfg)) <==> cfg.dashboard
  {
    forall n, p ensures EntryPoint(n, p) in Args(cfg) <==> ContainerPort(n, p) in Ports(cfg) {
      if ContainerPort(n, p) in Ports(cfg) {
        PortsAreEntryPoints(cfg, n, p);
      }
      if EntryPoint(n, p) in Args(cfg) {
        EntryPointsArePorts(cfg, n, p);
      }
    }
    if cfg.dashboard {
      assert Ports(cfg)[3] == ContainerPort("traefik", 9000);
    }
    if n :| ContainerPort(n, 9000) in Ports(cfg) {
      PortsAreEntryPoints(cfg, n, 9000);
    }
  }

  lemma ProviderArgsOnly(cfg: Config, a: Arg)
    requires a.EnableProvider? || a.ProviderClass? || a.ProviderService?
    ensures a in Args(cfg) <==> a in ProviderArgs(cfg)
  {
    var base := Args(cfg)[..|Args(cfg)| - |ProviderArgs(cfg)|];
    assert Args(cfg) == base + ProviderArgs(cfg);
  }

  /** At most one provider runs, and one runs unless the configured value is undocumented. */
  lemma OneProvider(cfg: Config, p: Provider)
    ensures EnableProvider(p) in Args(cfg) <==>
            !cfg.provider.Other? && p == if cfg.provider == Unset then KubernetesIngress else cfg.provider
  {
    ProviderArgsOnly(cfg, EnableProvider(p));
    if cfg.provider != KubernetesIngressNGINX && !cfg.provider.Other? {
      assert ProviderArgs(cfg)[0] == EnableProvider(KubernetesIngress);
    } else if cfg.provider == KubernetesIngressNGINX {
      assert ProviderArgs(cfg)[0] == EnableProvider(KubernetesIngressNGINX);
    }
  }

  /** The parts of the bundle that others refer to. */
  ghost predicate Skeleton(content: Content, cfg: Config, image: string) {
    && ObjKey(ServiceAccountKind, TRAEFIK) in content
    && ObjKey(ClusterRoleKind, ROLE) in content
    && ObjKey(ServiceKind, TRAEFIK) in content
    && ObjKey(IngressClassKind, cfg.IngressClassName()) in content
    && ObjKey(DeploymentKind, TRAEFIK) in content
    && content[ObjKey(DeploymentKind, TRAEFIK)] == DeploymentOf(cfg, image)
  }

  lemma HeldAt(content: Content, objects: nat -> K8sObject, i: nat, o: K8sObject)
    requires HoldsFixed(content, objects) && i < FIXED_COUNT && objects(i) == o
    ensures KeyOf(o) in content && content[KeyOf(o)] == o
  {
  }

  lemma SkeletonStands(content: Content, cfg: Config, image: string, objects: nat -> K8sObject)
    requires objects == FixedObjects(cfg, image) && HoldsFixed(content, objects)
    ensures Skeleton(content, cfg, image)
  {
    HeldAt(content, objects, 0, ServiceAccountOf());
    HeldAt(content, objects, 1, ClusterRoleOf(cfg));
    HeldAt(content, objects, 3, DeploymentOf(cfg, image));
    HeldAt(content, objects, 4, ServiceOf());
    HeldAt(content, objects, 5, IngressClassOf(cfg));
  }

  lemma EntryPointArgsResolve(content: Content, cfg: Config, a: Arg)
    requires a == PingEntryPoint("web") || a == MetricsEntryPoint("metrics")
    ensures ArgResolves(content, Args(cfg), a)
  {
    assert Args(cfg)[6] == EntryPoint("web", 8000);
    assert Args(cfg)[8] == EntryPoint("metrics", 9100);
  }

  lemma ProviderArgsResolve(content: Content, cfg: Config, image: string, a: Arg)
    requires Skeleton(content, cfg, image) && a in ProviderArgs(cfg)
    ensures ArgResolves(content, Args(cfg), a)
  {
    if a.ProviderClass? || a.ProviderService? {
      OneProvider(cfg, a.provider);
    }
  }

  lemma EntryPointArgs(cfg: Config, a: Arg)
    requires a in Args(cfg) && (a.PingEntryPoint? || a.MetricsEntryPoint?)
    ensures a == PingEntryPoint("web") || a == MetricsEntryPoint("metrics")
  {
  }

  lemma ArgsResolve(content: Content, cfg: Config, image: string, a: Arg)
    requires Skeleton(content, cfg, image) && a in Args(cfg)
    ensures ArgResolves(content, Args(cfg), a)
  {
    hide Args, ProviderArgs, Skeleton;
    if a.ProviderClass? || a.ProviderService? {
      ProviderArgsOnly(cfg, a);
      ProviderArgsResolve(content, cfg, image, a);
    } else if a.PingEntryPoint? || a.MetricsEntryPoint? {
      EntryPointArgs(cfg, a);
      EntryPointArgsResolve(content, cfg, a);
    }
  }

  lemma ProbesHitAPort(cfg: Config)
    ensures exists n :: ContainerPort(n, 8000) in Ports(cfg)
  {
    assert Ports(cfg)[0] == ContainerPort("web", 8000);
  }

  lemma DeploymentParts(content: Content, d: K8sObject, cfg: Config, image: string)
    requires d == DeploymentOf(cfg, image) && Skeleton(content, cfg, image)
    ensures Selects(d.selector, d.podLabels) && ObjKey(ServiceAccountKind, d.serviceAccount) in content
    ensures forall p :: p in d.probePorts ==> p == 8000
    ensures d.args == Args(cfg) && d.ports == Ports(cfg)
  {
  }

  lemma DeploymentIsClosed(content: Content, d: K8sObject, cfg: Config, image: string)
    requires d == DeploymentOf(cfg, image) && Skeleton(content, cfg, image)
    ensures DeploymentResolves(content, d)
  {
    DeploymentParts(content, d, cfg, image);
    EntryPointsAreThePorts(cfg);
    ProbesHitAPort(cfg);
    forall a | a in d.args ensures ArgResolves(content, d.args, a) {
      ArgsResolve(content, cfg, image, a);
    }
  }

  lemma ServiceIsClosed(content: Content, cfg: Config, image: string)
    requires Skeleton(content, cfg, image)
    ensures Resolves(content, ServiceOf())
  {
    var d := content[ObjKey(DeploymentKind, TRAEFIK)];
    assert Ports(cfg)[0] == ContainerPort("web", 8000) && Ports(cfg)[1] == ContainerPort("websecure", 8443);
    assert HasPort(d, "web") && HasPort(d, "websecure");
  }

  lemma FixedObjectIsClosed(content: Content, cfg: Config, image: string, o: K8sObject, i: nat)
    requires Skeleton(content, cfg, image) && cfg.replicas >= 1
    requires o == FixedObject(cfg, image, i)
    ensures Resolves(content, o)
  {
    if i == 3 {
      DeploymentIsClosed(content, o, cfg, image);
    } else if i == 4 {
      ServiceIsClosed(content, cfg, image);
    } else if i >= 6 {
      var d := content[ObjKey(DeploymentKind, TRAEFIK)];
      assert Selects(APP_SELECTOR, d.podLabels);
    }
  }

  lemma HeldObjectsAreClosed(content: Content, cfg: Config, image: string, objects: nat -> K8sObject)
    requires objects == FixedObjects(cfg, image) && HoldsFixed(content, objects) && cfg.replicas >= 1
    ensures Closed(content)
  {
    SkeletonStands(content, cfg, image, objects);
    forall k | k in content ensures Resolves(content, content[k]) {
      if !content[k].CustomResourceDefinition? {
        var i: nat :| i < FIXED_COUNT && content[k] == objects(i);
        FixedObjectIsClosed(content, cfg, image, content[k], i);
      }
    }
  }

  /**
   Bundle closure: whatever configuration a reconciliation runs with, the bundle it writes refers only to itself.
   */
  lemma PlannedBundleIsClosed(input: Input)
    requires Plan(input).Success?
    ensures Closed(Plan(input).value)
  {
    PlanHoldsFixed(input);
    var cfg := Merged(input.provided).value;
    HeldObjectsAreClosed(Plan(input).value, cfg, input.build.image.value, FixedObjects(cfg, input.build.image.value));
  }

  /** The bundle's deployment runs at least one replica, and at one log level, a valid one. */
  ghost predicate SoundDeployment(content: Content) {
    var k := ObjKey(DeploymentKind, TRAEFIK);
    && k in content && content[k].Deployment? && content[k].replicas >= 1
    && exists level :: level in VALID_LOG_LEVELS && forall l :: LogLevel(l) in content[k].args <==> l == level
  }

  lemma OneLogLevel(cfg: Config, l: string)
    ensures LogLevel(l) in Args(cfg) <==> l == cfg.logLevel
  {
    assert Args(cfg)[9] == LogLevel(cfg.logLevel);
  }

  lemma PlannedDeploymentIsSound(input: Input)
    requires Plan(input).Success?
    ensures SoundDeployment(Plan(input).value)
  {
    PlanHoldsFixed(input);
    var cfg, image := Merged(input.provided).value, input.build.image.value;
    SkeletonStands(Plan(input).value, cfg, image, FixedObjects(cfg, image));
    forall l ensures LogLevel(l) in Args(cfg) <==> l == cfg.logLevel {
      OneLogLevel(cfg, l);
    }
  }

  /** The ingress class the running provider watches is the one the bundle creates, under the matching controller. */
  lemma WatchedClassIsOurs(cfg: Config, p: Provider, c: string)
    requires ProviderClass(p, c) in Args(cfg)
    ensures EnableProvider(p) in Args(cfg) && IngressClassOf(cfg) == IngressClass(c, cfg.Controller())
    ensures p == KubernetesIngressNGINX <==> cfg.Controller() == "k8s.io/ingress-nginx"
  {
    ProviderArgsOnly(cfg, ProviderClass(p, c));
    OneProvider(cfg, p);
  }

  /** The NGINX role grants everything the base role grants, and differs from it. */
  lemma NginxRulesExtendBaseRules(a: Config, b: Config)
    requires a.provider == KubernetesIngressNGINX != b.provider
    ensures RoleRules(b) < RoleRules(a)
  {
    assert RoleRules(b) == BASE_RULES;
  }

  /** An ingress class with the controller that belongs to its name. */
  predicate ClassFits(o: K8sObject) {
    o.IngressClass? ==>
      || (o.name == "nginx" && o.controller == "k8s.io/ingress-nginx")
      || (o.name == "traefik" && o.controller == "traefik.io/ingress-controller")
  }

  predicate ClassesFit(content: Content) {
    forall k :: k in content ==> ClassFits(content[k]) && (content[k].IngressClass? ==> k == KeyOf(content[k]))
  }

  const OWN_CLASSES := {ObjKey(IngressClassKind, "nginx"), ObjKey(IngressClassKind, "traefik")}

  /** Classes under the names this extension uses have the right controller; any others may be there as well. */
  predicate OwnClassesFit(content: Content) {
    forall k :: k in content && k in OWN_CLASSES && content[k].IngressClass? ==>
                  ClassFits(content[k]) && k == KeyOf(content[k])
  }

  lemma HeldClassesFit(content: Content, cfg: Config, image: string, objects: nat -> K8sObject)
    requires objects == FixedObjects(cfg, image) && HoldsFixed(content, objects)
    ensures ClassesFit(content)
  {
    forall k | k in content && content[k].IngressClass? ensures ClassFits(content[k]) {
      var i: nat :| i < FIXED_COUNT && content[k] == objects(i);
      assert i == 5;
    }
  }

  lemma PlanClassesFit(input: Input)
    requires Plan(input).Success?
    ensures ClassesFit(Plan(input).value)
  {
    PlanHoldsFixed(input);
    var cfg := Merged(input.provided).value;
    HeldClassesFit(Plan(input).value, cfg, input.build.image.value, FixedObjects(cfg, input.build.image.value));
  }
}
