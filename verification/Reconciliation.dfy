/** What reconciliations write, when they write nothing, and what the shoot converges to. */
module Reconciliation {
  import opened Wrappers
  import opened Objects
  import opened Cluster
  import opened Lifecycle
  import W = Workload
  import G = Generator
  import S = Settings
  import B = BundleContent
  import C = Closure
  import T = Termination

  ghost predicate OnlyDeployments(turns: seq<Turn>) {
    forall t :: t in turns && t.Begin? ==> t.op.Deploying?
  }

  // ---- guarded writes

  /** Why a reconciliation stops before its first write. */
  predicate Refused(around: Surroundings, job: Job) {
    around.shoot.None? || around.shoot.value.deleting || around.shoot.value.hibernated || job.plan.Failure?
  }

  /** Every cluster lookup of the run fails or is refused. */
  ghost predicate AlwaysRefused(c: Config, turns: seq<Turn>)
    decreases |turns|
  {
    turns != [] ==>
      && (c.pc.AtCluster? && turns[0] == Answer(Ok) ==> Refused(c.ns.around, c.pc.job))
      && AlwaysRefused(Step(c, turns[0]), turns[1..])
  }

  /** Guarded writes: reconciliations that are all refused leave the cluster to the environment, in every run. */
  lemma {:induction false} RefusedReconcilesWriteNothing(c: Config, turns: seq<Turn>)
    requires (c.pc.Idle? || c.pc.AtCluster?) && OnlyDeployments(turns) && AlwaysRefused(c, turns)
    ensures Run(c, turns).ns == EnvironmentOnly(c.ns, turns)
    decreases |turns|
  {
    if turns != [] {
      assert turns[0] in turns;
      RefusedReconcilesWriteNothing(Step(c, turns[0]), turns[1..]);
    }
  }

  lemma FirstWriteUnlessRefused(c: Config, r: Reply)
    requires c.pc.AtCluster?
    ensures var call := CallAt(Step(c, Answer(r)).pc);
            && (call.CreateForShoot? <==> r == Ok && !Refused(c.ns.around, c.pc.job))
            && (call.CreateForShoot? ==> Success(call.content) == c.pc.job.plan)
  {
  }

  lemma PlanIsOfMerged(input: G.Input)
    requires G.Plan(input).Success?
    ensures S.Merged(input.provided).Success?
    ensures G.Plan(input) == G.PlanOf(S.Merged(input.provided).value, input.build)
  {
    hide G.PlanOf;
  }

  /**
   And conversely: the reconciliation of an input goes on to write exactly if the lookup is answered with a shoot that
   is neither deleted nor hibernated and nothing is wrong with the input, and what it writes is the bundle of the
   merged configuration.
   */
  lemma ReconcileWritesExactly(c: Config, input: G.Input, restoring: bool, r: Reply)
    requires c.pc == AtCluster(Job(G.Plan(input), restoring))
    ensures var call := CallAt(Step(c, Answer(r)).pc);
            && (call.CreateForShoot? <==>
                && r == Ok && c.ns.around.shoot.Some? && !c.ns.around.shoot.value.deleting
                && !c.ns.around.shoot.value.hibernated && !G.Unplannable(input))
            && (call.CreateForShoot? ==>
                  && S.Merged(input.provided).Success?
                  && Success(call.content) == G.PlanOf(S.Merged(input.provided).value, input.build)
                  && B.MatchesInput(call.content, input))
  {
    hide Step, G.Plan, G.PlanOf, B.MatchesInput;
    FirstWriteUnlessRefused(c, r);
    G.PlanFailsExactly(input);
    if G.Plan(input).Success? {
      PlanIsOfMerged(input);
      B.PlanMatchesInput(input);
    }
  }

  ghost predicate IsPlan(plan: Result<Content, G.PlanError>) {
    exists input :: plan == G.Plan(input)
  }

  /** Every deployment that begins carries what the generator makes of some input. */
  ghost predicate GenuinePlans(turns: seq<Turn>) {
    forall t :: t in turns && t.Begin? && t.op.Deploying? ==> IsPlan(t.op.job.plan)
  }

  /** Contents about to be written are plans, for shoots that are neither deleted nor hibernated. */
  ghost predicate Genuine(pc: Pc) {
    && (pc.AtCluster? ==> IsPlan(pc.job.plan))
    && (pc.AtDeploy? ==> IsPlan(Success(pc.content)) && !pc.shoot.deleting && !pc.shoot.hibernated)
  }

  lemma StepIsGenuine(c: Config, t: Turn)
    requires Genuine(c.pc) && (t.Begin? && t.op.Deploying? ==> IsPlan(t.op.job.plan))
    ensures Genuine(Step(c, t).pc)
  {
  }

  lemma {:induction false} HistoryIsGenuine(c: Config, turns: seq<Turn>, x: Exchange)
    requires Genuine(c.pc) && GenuinePlans(turns) && x in History(c, turns)
    ensures Genuine(x.pc)
    decreases |turns|
  {
    assert turns[0] in turns;
    if x !in Exchanged(c, turns[0]) {
      StepIsGenuine(c, turns[0]);
      HistoryIsGenuine(Step(c, turns[0]), turns[1..], x);
    }
  }

  /**
   Every bundle written in any run is a generated one for an active shoot: closed under its own references, with at
   least one replica, which is the disruption budget's minimum, and a valid log level.
   */
  lemma EveryWriteIsAClosedBundle(ns: Namespace, turns: seq<Turn>, x: Exchange)
    requires GenuinePlans(turns) && x in History(Fresh(ns), turns) && x.pc.AtDeploy?
    ensures IsPlan(Success(x.pc.content)) && C.Closed(x.pc.content) && C.SoundDeployment(x.pc.content)
    ensures exists input :: Success(x.pc.content) == G.Plan(input) && B.MatchesInput(x.pc.content, input)
    ensures SERVICE_KEY in x.pc.content && x.pc.content[SERVICE_KEY].Service?
    ensures !x.pc.shoot.deleting && !x.pc.shoot.hibernated
  {
    HistoryIsGenuine(Fresh(ns), turns, x);
    var input :| Success(x.pc.content) == G.Plan(input);
    C.PlannedBundleIsClosed(input);
    C.PlannedDeploymentIsSound(input);
    B.PlanMatchesInput(input);
  }

  // ---- DNS content

  /** The addresses of a load balancer in the order in which they are considered. */
  function Flattened(lb: seq<LbIngress>): seq<string> {
    if lb == [] then [] else [lb[0].ip, lb[0].hostname] + Flattened(lb[1..])
  }

  ghost predicate FirstNonEmpty(addresses: seq<string>, a: string) {
    exists i: nat :: i < |addresses| && addresses[i] == a != "" && forall j :: 0 <= j < i ==> addresses[j] == ""
  }

  ghost predicate AllEmpty(addresses: seq<string>) {
    forall i :: 0 <= i < |addresses| ==> addresses[i] == ""
  }

  lemma {:induction false} NoAddressMeansAllEmpty(lb: seq<LbIngress>)
    ensures LbAddress(lb) == "" <==> AllEmpty(Flattened(lb))
  {
    if lb != [] {
      var rest := Flattened(lb[1..]);
      NoAddressMeansAllEmpty(lb[1..]);
      assert Flattened(lb)[0] == lb[0].ip && Flattened(lb)[1] == lb[0].hostname;
      assert forall i :: 0 <= i < |rest| ==> Flattened(lb)[i + 2] == rest[i];
      if AllEmpty(Flattened(lb)) {
        forall i | 0 <= i < |rest| ensures rest[i] == "" {
          assert Flattened(lb)[i + 2] == "";
        }
      }
    }
  }

  lemma {:induction false} LbAddressIsFirstNonEmpty(lb: seq<LbIngress>)
    requires LbAddress(lb) != ""
    ensures FirstNonEmpty(Flattened(lb), LbAddress(lb))
  {
    var rest := Flattened(lb[1..]);
    assert Flattened(lb)[0] == lb[0].ip && Flattened(lb)[1] == lb[0].hostname;
    if lb[0].ip == "" && lb[0].hostname == "" {
      LbAddressIsFirstNonEmpty(lb[1..]);
      var i: nat :| i < |rest| && rest[i] == LbAddress(lb) && forall j :: 0 <= j < i ==> rest[j] == "";
      assert Flattened(lb)[i + 2] == LbAddress(lb);
      assert forall j :: 0 <= j < i + 2 ==> Flattened(lb)[j] == if j < 2 then "" else rest[j - 2];
    }
  }

  /** One label of a domain name. */
  predicate IsLabel(l: string) {
    l != "" && '.' !in l
  }

  /** A wildcard name covers the hosts that have exactly one label in place of its leading asterisk. */
  ghost predicate Covers(pattern: string, host: string) {
    && pattern != "" && pattern[0] == '*'
    && exists l :: IsLabel(l) && host == l + pattern[1..]
  }

  /** The hosts ingresses of the shoot are given: one label in front of the ingress domain. */
  ghost predicate IngressHost(host: string, domain: string) {
    exists l :: IsLabel(l) && host == l + ".ingress." + domain
  }

  /** The name stands for exactly the ingress hosts of the domain. */
  ghost predicate CoversIngress(name: string, domain: string) {
    forall host :: Covers(name, host) <==> IngressHost(host, domain)
  }

  lemma WildcardCoversIngress(domain: string)
    ensures CoversIngress(WildcardName(domain), domain)
  {
    var pattern := WildcardName(domain);
    assert pattern[1..] == ".ingress." + domain;
    forall host ensures Covers(pattern, host) <==> IngressHost(host, domain) {
      if l :| IsLabel(l) && host == l + pattern[1..] {
        assert host == l + ".ingress." + domain;
      }
      if l :| IsLabel(l) && host == l + ".ingress." + domain {
        assert host == l + pattern[1..];
      }
    }
  }

  /** The shoot was read, and is to be reconciled. */
  predicate ShootRead(x: Exchange, shoot: Shoot) {
    && x.pc.AtCluster? && x.r == Ok && x.ns.around.shoot == Some(shoot) && !shoot.deleting && !shoot.hibernated
  }

  /** The reference was read from the shoot's external record. */
  predicate ReferenceRead(x: Exchange, shoot: Shoot, ref: DnsRef) {
    && x.pc.AtExternal? && x.r == Ok && x.pc.shootName == shoot.name
    && Lookup(x.ns.around.externals, shoot.name + "-external") == Some(ref)
  }

  /** The value was read from the service of the shoot. */
  ghost predicate AddressRead(x: Exchange, values: seq<string>) {
    && x.pc.AtService? && x.r == Ok && x.ns.around.reachable && SERVICE_KEY in x.ns.objects
    && |values| == 1 && FirstNonEmpty(Flattened(x.ns.around.loadBalancer), values[0])
  }

  /** The calls before, counted from the last one as 1. */
  function Ago(past: seq<Exchange>, n: nat): Exchange
    requires 0 < n <= |past|
  {
    past[|past| - n]
  }

  /** The manifest is what the attempt's own calls have read: shoot, external record and service. */
  ghost predicate FromReads(spec: DnsSpec, past: seq<Exchange>) {
    && |past| >= 5
    && Ago(past, 5).ns.around.shoot.Some? && Ago(past, 5).ns.around.shoot.value.domain.Some?
    && var shoot := Ago(past, 5).ns.around.shoot.value;
    && ShootRead(Ago(past, 5), shoot) && ReferenceRead(Ago(past, 3), shoot, spec.ref)
    && AddressRead(Ago(past, 1), spec.values)
    && CoversIngress(spec.name, shoot.domain.value)
  }

  /** What a reconciliation carries along comes from its own reads. */
  ghost predicate Justified(pc: Pc, past: seq<Exchange>) {
    match pc
    case AtDeploy(_, _, shoot) => |past| >= 1 && ShootRead(Ago(past, 1), shoot)
    case AtExternal(_, name, domain) =>
      |past| >= 2 && exists shoot :: ShootRead(Ago(past, 2), shoot) && shoot.name == name &&
                                     shoot.domain == Some(domain)
    case AtShootClient(_, domain, ref) =>
      |past| >= 3 && exists shoot :: ShootRead(Ago(past, 3), shoot) && shoot.domain == Some(domain) &&
                                     ReferenceRead(Ago(past, 1), shoot, ref)
    case AtService(_, domain, ref) =>
      |past| >= 4 && exists shoot :: ShootRead(Ago(past, 4), shoot) && shoot.domain == Some(domain) &&
                                     ReferenceRead(Ago(past, 2), shoot, ref)
    case AtSeed(_, spec) => FromReads(spec, past)
    case _ => true
  }

  lemma StepJustifies(c: Config, t: Turn, past: seq<Exchange>)
    requires Justified(c.pc, past)
    ensures Justified(Step(c, t).pc, past + Exchanged(c, t))
  {
    var now := past + Exchanged(c, t);
    if Exchanged(c, t) == [] {
      assert now == past;
    } else {
      assert forall n: nat :: 0 < n <= |past| ==> Ago(now, n + 1) == Ago(past, n);
      if c.pc.AtService? {
        ServiceReadJustifies(c, t.r, past);
      }
    }
  }

  lemma ServiceReadJustifies(c: Config, r: Reply, past: seq<Exchange>)
    requires c.pc.AtService? && Justified(c.pc, past)
    ensures Justified(Step(c, Answer(r)).pc, past + [Exchange(c.pc, c.ns, r)])
  {
    var next, now := Step(c, Answer(r)).pc, past + [Exchange(c.pc, c.ns, r)];
    if next.AtSeed? {
      LbAddressIsFirstNonEmpty(c.ns.around.loadBalancer);
      assert Ago(now, 5) == Ago(past, 4) && Ago(now, 3) == Ago(past, 2);
      WildcardCoversIngress(c.pc.domain);
    }
  }

  lemma {:induction false} RunJustifies(c: Config, turns: seq<Turn>, past: seq<Exchange>, i: nat)
    requires Justified(c.pc, past) && |past| <= i < |past + History(c, turns)|
    ensures Justified((past + History(c, turns))[i].pc, (past + History(c, turns))[..i])
    decreases |turns|
  {
    var now := Exchanged(c, turns[0]);
    var later := History(Step(c, turns[0]), turns[1..]);
    var all := past + History(c, turns);
    assert all == (past + now) + later;
    StepJustifies(c, turns[0], past);
    if i < |past + now| {
      assert all[..i] == past && all[i] == now[0];
    } else {
      RunJustifies(Step(c, turns[0]), turns[1..], past + now, i);
    }
  }

  /**
   DNS content: in every run, a record is written only as the sixth call of a reconciliation that read an active shoot
   with a domain, two calls later the reference from that shoot's external record, and in the last call the service.
   It has the first non-empty address of the load balancer as its only value, under the wildcard name of the domain
   read.
   */
  lemma RecordsFollowTheLoadBalancer(ns: Namespace, turns: seq<Turn>, i: nat)
    requires i < |History(Fresh(ns), turns)| && History(Fresh(ns), turns)[i].pc.AtSeed?
    ensures FromReads(History(Fresh(ns), turns)[i].pc.spec, History(Fresh(ns), turns)[..i])
  {
    var h := History(Fresh(ns), turns);
    assert [] + h == h;
    RunJustifies(Fresh(ns), turns, [], i);
  }

  /** While the balancer has no address the step fails; with one, and the service there, it goes on to write. */
  lemma PublishesExactlyWithAnAddress(c: Config, r: Reply)
    requires c.pc.AtService?
    ensures var after := Step(c, Answer(r));
            && after.ns == c.ns && (after.pc.AtSeed? || after.pc == Idle(Errored(Deploying(c.pc.job))))
            && (after.pc.AtSeed? <==>
                && r == Ok && c.ns.around.reachable && SERVICE_KEY in c.ns.objects
                && !AllEmpty(Flattened(c.ns.around.loadBalancer)))
  {
    NoAddressMeansAllEmpty(c.ns.around.loadBalancer);
  }

  // ---- ingress classes

  lemma PlannedClassesFit(plan: Result<Content, G.PlanError>)
    requires IsPlan(plan) && plan.Success?
    ensures C.ClassesFit(plan.value)
  {
    var input :| plan == G.Plan(input);
    C.PlanClassesFit(input);
  }

  ghost predicate ClassesFitEverywhere(c: Config) {
    && Genuine(c.pc) && C.OwnClassesFit(c.ns.objects)
    && (c.ns.shootMR.Some? ==> C.ClassesFit(c.ns.shootMR.value.content))
  }

  lemma StepFits(c: Config, t: Turn)
    requires ClassesFitEverywhere(c)
    requires t.Begin? && t.op.Deploying? ==> IsPlan(t.op.job.plan)
    ensures ClassesFitEverywhere(Step(c, t))
  {
    StepIsGenuine(c, t);
    if c.pc.AtDeploy? {
      PlannedClassesFit(Success(c.pc.content));
    }
    if t.Env? {
      EnvFits(c.ns, t.e);
    } else {
      OnlyDeployWritesContent(c, t);
    }
  }

  lemma EnvFits(ns: Namespace, e: EnvTurn)
    requires C.OwnClassesFit(ns.objects) && (ns.shootMR.Some? ==> C.ClassesFit(ns.shootMR.value.content))
    ensures var after := EnvStep(ns, e);
            C.OwnClassesFit(after.objects) && (after.shootMR.Some? ==> C.ClassesFit(after.shootMR.value.content))
  {
  }

  lemma OnlyDeployWritesContent(c: Config, t: Turn)
    requires !t.Env?
    ensures var now, after := c.ns, Step(c, t).ns;
            && after.objects == now.objects
            && (after.shootMR.Some? ==>
                  || (now.shootMR.Some? && after.shootMR.value.content == now.shootMR.value.content)
                  || (c.pc.AtDeploy? && after.shootMR.value.content == c.pc.content))
  {
  }

  lemma {:induction false} RunFits(c: Config, turns: seq<Turn>)
    requires ClassesFitEverywhere(c) && GenuinePlans(turns)
    ensures ClassesFitEverywhere(Run(c, turns))
    decreases |turns|
  {
    if turns != [] {
      assert turns[0] in turns;
      StepFits(c, turns[0]);
      RunFits(Step(c, turns[0]), turns[1..]);
    }
  }

  /**
   An ingress class never needs another controller: whatever providers the configurations switch between, applying an
   object to an existing ingress class leaves its controller as it is. The shoot may hold any classes of others.
   */
  lemma ControllersNeverChange(ns: Namespace, turns: seq<Turn>, k: ObjKey)
    requires C.OwnClassesFit(ns.objects) && (ns.shootMR.Some? ==> C.ClassesFit(ns.shootMR.value.content))
    requires GenuinePlans(turns)
    ensures var now := Run(Fresh(ns), turns).ns;
            var after := EnvStep(now, ApplyObject(k));
            k in now.objects && now.objects[k].IngressClass? && after.objects[k].IngressClass? ==>
              after.objects[k].controller == now.objects[k].controller
  {
    RunFits(Fresh(ns), turns);
    assert |"nginx"| != |"traefik"|;
  }

  // ---- convergence

  predicate NotGoing(ns: Namespace) {
    ns.shootMR.None? || Live(ns.shootMR)
  }

  /** What resource-manager does not track has been there, untracked, from the start. */
  predicate Managed(now: Namespace, start: Namespace) {
    && NotGoing(now) && (start.shootMR.Some? ==> now.shootMR.Some?)
    && forall k :: k in now.objects && k !in W.Applied(now) ==>
         k in start.objects && k !in W.Applied(start) && now.objects[k] == start.objects[k]
  }

  lemma StepManages(c: Config, t: Turn, start: Namespace)
    requires Managed(c.ns, start) && KindAt(c.pc).None? && (t.Begin? ==> t.op.Deploying?)
    ensures Managed(Step(c, t).ns, start) && KindAt(Step(c, t).pc).None?
    ensures c.ns.shootMR.Some? ==> Step(c, t).ns.shootMR.Some?
    ensures c.pc.AtDeploy? && t.Answer? && t.r != Err ==> Step(c, t).ns.shootMR.Some?
  {
  }

  lemma {:induction false} RunManages(c: Config, turns: seq<Turn>, start: Namespace)
    requires Managed(c.ns, start) && KindAt(c.pc).None? && OnlyDeployments(turns)
    ensures Managed(Run(c, turns).ns, start) && KindAt(Run(c, turns).pc).None?
    decreases |turns|
  {
    if turns != [] {
      assert turns[0] in turns;
      StepManages(c, turns[0], start);
      RunManages(Step(c, turns[0]), turns[1..], start);
    }
  }

  /** The content most recently written to the shoot resource. */
  function LastDeployed(h: seq<Exchange>): Option<Content>
    decreases |h|
  {
    if h == [] then None
    else
      var x := h[|h| - 1];
      if x.r != Err && x.pc.AtDeploy? then Some(x.pc.content) else LastDeployed(h[..|h| - 1])
  }

  lemma {:induction false} LastDeployedAppend(a: seq<Exchange>, b: seq<Exchange>)
    ensures LastDeployed(a + b) == if LastDeployed(b).Some? then LastDeployed(b) else LastDeployed(a)
    decreases |b|
  {
    if b == [] {
      assert a + b == a;
    } else {
      assert (a + b)[..|a + b| - 1] == a + b[..|b| - 1];
      LastDeployedAppend(a, b[..|b| - 1]);
    }
  }

  lemma StepDeploys(c: Config, t: Turn)
    ensures var after := Step(c, t).ns.shootMR;
            after.Some? ==>
              match LastDeployed(Exchanged(c, t))
              case Some(content) => after.value.content == content
              case None => c.ns.shootMR.Some? && after.value.content == c.ns.shootMR.value.content
  {
    var h := Exchanged(c, t);
    assert h != [] ==> h[..|h| - 1] == [];
  }

  lemma {:induction false} ContentIsLastDeployed(c: Config, turns: seq<Turn>)
    ensures var mr := Run(c, turns).ns.shootMR;
            mr.Some? ==>
              match LastDeployed(History(c, turns))
              case Some(content) => mr.value.content == content
              case None => c.ns.shootMR.Some? && mr.value.content == c.ns.shootMR.value.content
    decreases |turns|
  {
    if turns != [] {
      StepDeploys(c, turns[0]);
      ContentIsLastDeployed(Step(c, turns[0]), turns[1..]);
      LastDeployedAppend(Exchanged(c, turns[0]), History(Step(c, turns[0]), turns[1..]));
    }
  }

  lemma {:induction false} DeployedResourceStays(c: Config, turns: seq<Turn>, start: Namespace)
    requires Managed(c.ns, start) && KindAt(c.pc).None? && OnlyDeployments(turns)
    ensures c.ns.shootMR.Some? || LastDeployed(History(c, turns)).Some? ==> Live(Run(c, turns).ns.shootMR)
    decreases |turns|
  {
    if turns != [] {
      assert turns[0] in turns;
      StepManages(c, turns[0], start);
      StepDeploys(c, turns[0]);
      DeployedResourceStays(Step(c, turns[0]), turns[1..], start);
      LastDeployedAppend(Exchanged(c, turns[0]), History(Step(c, turns[0]), turns[1..]));
    }
  }

  /**
   Convergence: after any run of reconciliations and restores over a live resource or none, once resource-manager has
   settled, the shoot holds exactly the content deployed last, whatever was deployed before it, and beside it at most
   objects nobody tracked when the run began, as they were.
   */
  lemma ShootConvergesToLastDeployment(ns: Namespace, turns: seq<Turn>)
    requires NotGoing(ns) && OnlyDeployments(turns)
    requires LastDeployed(History(Fresh(ns), turns)).Some? && W.Settled(Run(Fresh(ns), turns).ns)
    ensures var end, content := Run(Fresh(ns), turns).ns.objects, LastDeployed(History(Fresh(ns), turns)).value;
            && (forall k :: k in content ==> k in end && end[k] == content[k])
            && (forall k :: k in end && k !in content ==>
                  k in ns.objects && k !in W.Applied(ns) && end[k] == ns.objects[k])
            && (ns.objects.Keys <= W.Applied(ns) ==> end == content)
  {
    RunManages(Fresh(ns), turns, ns);
    DeployedResourceStays(Fresh(ns), turns, ns);
    ContentIsLastDeployed(Fresh(ns), turns);
  }

  /** Resource-manager does settle: as long as it has not, some turn of its own brings it closer. */
  lemma SettlingTurn(ns: Namespace) returns (e: EnvTurn)
    requires Live(ns.shootMR) && ns.around.reachable && !W.Settled(ns)
    ensures (e.ApplyObject? || e.PruneObject?) && T.ShootWork(EnvStep(ns, e)) < T.ShootWork(ns)
    ensures Live(EnvStep(ns, e).shootMR) && EnvStep(ns, e).around == ns.around
    ensures EnvStep(ns, e).shootMR.value.content == ns.shootMR.value.content
  {
    var mr := ns.shootMR.value;
    if k :| k in T.Unsynced(ns) {
      e := ApplyObject(k);
      var after := EnvStep(ns, e);
      assert k in after.shootMR.value.applied && k in after.objects && after.objects[k] == mr.content[k];
    } else {
      assert forall k :: k in mr.content ==> k !in T.Unsynced(ns);
      var k :| k in mr.applied && k !in mr.content;
      e := PruneObject(k);
      assert k !in EnvStep(ns, e).shootMR.value.applied;
    }
    T.ShootTurnWorks(ns, e);
  }

  lemma ShootSettles(ns: Namespace) returns (turns: seq<Turn>)
    requires Live(ns.shootMR) && ns.around.reachable
    ensures var end := EnvironmentOnly(ns, turns);
            W.Settled(end) && Live(end.shootMR) && end.shootMR.value.content == ns.shootMR.value.content
    decreases T.ShootWork(ns)
  {
    if W.Settled(ns) {
      turns := [];
    } else {
      var e := SettlingTurn(ns);
      var rest := ShootSettles(EnvStep(ns, e));
      turns := [Env(e)] + rest;
      assert turns[1..] == rest;
    }
  }
}
