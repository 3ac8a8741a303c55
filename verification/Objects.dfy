/** The Kubernetes objects of the Traefik bundle, reduced to the fields that refer to one another. */
module Objects {
  import opened Settings

  const NAMESPACE := "kube-system"
  const TRAEFIK := "traefik"
  const ROLE := "traefik-ingress-controller"

  datatype LabelKey = AppName | AppInstance | AppComponent | AppManagedBy | ToApiServer | ToDns

  type Labels = map<LabelKey, string>

  datatype Rule = Rule(apiGroups: seq<string>, resources: seq<string>, verbs: seq<string>)

  datatype ContainerPort = ContainerPort(name: string, number: int)

  datatype ServicePort = ServicePort(name: string, number: int, targetPort: string)

  /** Command-line arguments of Traefik, one constructor per flag the deployer can emit. */
  datatype Arg =
    | ApiInsecure(on: bool)
    | ApiDashboard(on: bool)
    | Ping
    | PingEntryPoint(entryPoint: string)
    | Metrics
    | MetricsEntryPoint(entryPoint: string)
    | EntryPoint(name: string, port: int)
    | LogLevel(level: string)
    | EnableProvider(provider: Provider)
    | ProviderClass(provider: Provider, className: string)
    | ProviderService(provider: Provider, namespace: string, service: string)

  datatype LbIngress = LbIngress(ip: string, hostname: string)

  datatype DnsRef = DnsRef(provider: string, secretRef: string)

  datatype DnsSpec = DnsSpec(ref: DnsRef, name: string, values: seq<string>)

  datatype K8sObject =
    | ServiceAccount(name: string)
    | ClusterRole(name: string, rules: seq<Rule>)
    | ClusterRoleBinding(name: string, role: string, subject: string)
    | Deployment(name: string, replicas: int, selector: Labels, podLabels: Labels, serviceAccount: string,
                 image: string, args: seq<Arg>, ports: seq<ContainerPort>, probePorts: seq<int>)
    | Service(name: string, selector: Labels, servicePorts: seq<ServicePort>)
    | IngressClass(name: string, controller: string)
    | NetworkPolicy(name: string, selector: Labels)
    | PodDisruptionBudget(name: string, minAvailable: int, selector: Labels)
    | CustomResourceDefinition(name: string, payload: string)
    | DnsRecordManifest(spec: DnsSpec)

  datatype Kind =
    | ServiceAccountKind | ClusterRoleKind | ClusterRoleBindingKind | DeploymentKind | ServiceKind
    | IngressClassKind | NetworkPolicyKind | PodDisruptionBudgetKind | CrdKind | DnsRecordKind

  /** The identity under which an API server stores an object; the extension's one DNSRecord has a fixed name. */
  datatype ObjKey = ObjKey(kind: Kind, name: string) | OwnRecord

  /** The service whose load balancer receives the traffic. */
  const SERVICE_KEY := ObjKey(ServiceKind, "traefik")

  /** A set of objects as a cluster stores it. */
  type Content = map<ObjKey, K8sObject>

  function KindOf(o: K8sObject): Kind {
    match o
    case ServiceAccount(_) => ServiceAccountKind
    case ClusterRole(_, _) => ClusterRoleKind
    case ClusterRoleBinding(_, _, _) => ClusterRoleBindingKind
    case Deployment(_, _, _, _, _, _, _, _, _) => DeploymentKind
    case Service(_, _, _) => ServiceKind
    case IngressClass(_, _) => IngressClassKind
    case NetworkPolicy(_, _) => NetworkPolicyKind
    case PodDisruptionBudget(_, _, _) => PodDisruptionBudgetKind
    case CustomResourceDefinition(_, _) => CrdKind
    case DnsRecordManifest(_) => DnsRecordKind
  }

  function KeyOf(o: K8sObject): ObjKey {
    if o.DnsRecordManifest? then OwnRecord else ObjKey(KindOf(o), o.name)
  }

  const APP_SELECTOR: Labels := map[AppName := TRAEFIK, AppInstance := TRAEFIK]

  const POD_LABELS: Labels :=
    map[AppName := TRAEFIK, AppInstance := TRAEFIK, AppComponent := "ingress-controller",
        AppManagedBy := "gardener", ToApiServer := "allowed", ToDns := "allowed"]

  const READ := ["get", "list", "watch"]

  const BASE_RULES: seq<Rule> := [
    Rule([""], ["services", "endpoints", "secrets", "nodes"], READ),
    Rule(["discovery.k8s.io"], ["endpointslices"], READ),
    Rule(["extensions", "networking.k8s.io"], ["ingresses", "ingressclasses"], READ),
    Rule(["extensions", "networking.k8s.io"], ["ingresses/status"], ["update"]),
    Rule(["traefik.io"],
         ["ingressroutes", "ingressroutetcps", "ingressrouteudps", "middlewares", "middlewaretcps", "serverstransports",
          "serverstransporttcps", "tlsoptions", "tlsstores", "traefikservices"], READ)]

  function RoleRules(cfg: Config): seq<Rule> {
    BASE_RULES +
    if cfg.provider == KubernetesIngressNGINX then
      [Rule([""], ["namespaces"], READ), Rule([""], ["pods"], ["get"])]
    else []
  }

  function ProviderArgs(cfg: Config): seq<Arg> {
    (if cfg.provider == KubernetesIngress || cfg.provider == Unset then
       [EnableProvider(KubernetesIngress), ProviderClass(KubernetesIngress, cfg.IngressClassName()),
        ProviderService(KubernetesIngress, "kube-system", "traefik")]
     else []) +
    (if cfg.provider == KubernetesIngressNGINX then
       [EnableProvider(KubernetesIngressNGINX), ProviderClass(KubernetesIngressNGINX, cfg.IngressClassName()),
        ProviderService(KubernetesIngressNGINX, "kube-system", "traefik")]
     else [])
  }

  function Args(cfg: Config): seq<Arg> {
    [ApiInsecure(cfg.dashboard), ApiDashboard(cfg.dashboard), Ping, PingEntryPoint("web"), Metrics,
     MetricsEntryPoint("metrics"), EntryPoint("web", 8000), EntryPoint("websecure", 8443), EntryPoint("metrics", 9100),
     LogLevel(cfg.logLevel)] +
    (if cfg.dashboard then [EntryPoint("traefik", 9000)] else []) +
    ProviderArgs(cfg)
  }

  function Ports(cfg: Config): seq<ContainerPort> {
    [ContainerPort("web", 8000), ContainerPort("websecure", 8443), ContainerPort("metrics", 9100)] +
    if cfg.dashboard then [ContainerPort("traefik", 9000)] else []
  }

  function ServiceAccountOf(): K8sObject {
    ServiceAccount(TRAEFIK)
  }

  function ClusterRoleOf(cfg: Config): K8sObject {
    ClusterRole(ROLE, RoleRules(cfg))
  }

  function ClusterRoleBindingOf(): K8sObject {
    ClusterRoleBinding(ROLE, "traefik-ingress-controller", TRAEFIK)
  }

  function DeploymentOf(cfg: Config, image: string): K8sObject {
    Deployment(TRAEFIK, cfg.replicas, APP_SELECTOR, POD_LABELS, TRAEFIK, image, Args(cfg), Ports(cfg),
               [8000, 8000, 8000])
  }

  function ServiceOf(): K8sObject {
    Service("traefik", APP_SELECTOR, [ServicePort("web", 80, "web"), ServicePort("websecure", 443, "websecure")])
  }

  function IngressClassOf(cfg: Config): K8sObject {
    IngressClass(cfg.IngressClassName(), cfg.Controller())
  }

  function NetworkPolicyOf(): K8sObject {
    NetworkPolicy("traefik-allow-ingress", APP_SELECTOR)
  }

  function PodDisruptionBudgetOf(): K8sObject {
    PodDisruptionBudget(TRAEFIK, 1, APP_SELECTOR)
  }
}
