/** Reconciling again with the same input over a settled cluster changes nothing, however the attempts end. */
module Repetition {
  import opened Wrappers
  import opened Objects
  import opened Cluster
  import opened Lifecycle
  import W = Workload
  import T = Termination

  /** The manifest a reconciliation would publish in these surroundings, if it publishes one. */
  function Publication(around: Surroundings): Option<DnsSpec> {
    if around.shoot.None? || around.shoot.value.domain.None? || LbAddress(around.loadBalancer) == "" then None
    else
      var external := around.shoot.value.name + "-external";
      if external !in around.externals then None
      else Some(DnsSpec(around.externals[external], WildcardName(around.shoot.value.domain.value),
                        [LbAddress(around.loadBalancer)]))
  }

  /** Both resources are as the deployment would write them, and resource-manager has nothing left to do. */
  predicate InPlace(ns: Namespace, content: Content) {
    && Deployed(ns, content) && W.Settled(ns)
    && (ns.record.Some? ==> !ns.record.value.terminating)
    && (ns.seedMR.Some? ==> Live(ns.seedMR) && !T.RecordUnsynced(ns))
    && (Publication(ns.around).Some? ==> Published(ns))
  }

  predicate Published(ns: Namespace)
    requires Publication(ns.around).Some?
  {
    && Live(ns.seedMR) && !ns.seedMR.value.keepObjects
    && ns.seedMR.value.content == map[OwnRecord := DnsRecordManifest(Publication(ns.around).value)]
  }

  predicate Deployed(ns: Namespace, content: Content) {
    Live(ns.shootMR) && !ns.shootMR.value.keepObjects && ns.shootMR.value.content == content
  }

  /** The operation in flight carries exactly what is already in place. */
  predicate Repeating(c: Config, content: Content) {
    && InPlace(c.ns, content)
    && match c.pc
       case Idle(_) => true
       case AtCluster(job) => job.plan == Success(content)
       case AtDeploy(_, mine, shoot) => mine == content && Some(shoot) == c.ns.around.shoot
       case AtExternal(_, name, domain) =>
         c.ns.around.shoot.Some? && name == c.ns.around.shoot.value.name &&
         Some(domain) == c.ns.around.shoot.value.domain
       case AtShootClient(_, domain, ref) => Publishing(c.ns.around, domain, ref)
       case AtService(_, domain, ref) => Publishing(c.ns.around, domain, ref)
       case AtSeed(_, spec) => Publication(c.ns.around) == Some(spec)
       case _ => false
  }

  predicate Publishing(around: Surroundings, domain: string, ref: DnsRef) {
    && around.shoot.Some? && Some(domain) == around.shoot.value.domain
    && (around.shoot.value.name + "-external") in around.externals
    && around.externals[around.shoot.value.name + "-external"] == ref
  }

  lemma EnvironmentRests(ns: Namespace, e: EnvTurn, content: Content)
    requires InPlace(ns, content) && !e.Observe?
    ensures EnvStep(ns, e) == ns
  {
    if e.ApplyObject? && e.key in content {
      assert ns.objects[e.key := content[e.key]] == ns.objects;
      assert ns.shootMR.value.applied + {e.key} == ns.shootMR.value.applied;
    }
    if e.ApplyRecord? && ns.seedMR.Some? && HasManifest(ns.seedMR.value) {
      assert ns.seedMR.value.applied + {OwnRecord} == ns.seedMR.value.applied;
    }
  }

  lemma AnswerRepeats(c: Config, r: Reply, content: Content)
    requires Repeating(c, content)
    ensures Repeating(Step(c, Answer(r)), content) && Step(c, Answer(r)).ns == c.ns
  {
  }

  /** The only operations that begin deploy this content, and the surroundings stay as they are. */
  ghost predicate OnlyRepeats(turns: seq<Turn>, content: Content) {
    forall t :: t in turns ==>
      && (t.Begin? ==> t.op.Deploying? && t.op.job.plan == Success(content))
      && (t.Env? ==> !t.e.Observe?)
  }

  /**
   Idempotence: over a cluster where the deployment is in place, any run of further reconciliations of the same
   content, complete, failed or crashed anywhere, leaves the namespace exactly as it is.
   */
  lemma {:induction false} ReconcilingAgainChangesNothing(c: Config, turns: seq<Turn>, content: Content)
    requires Repeating(c, content) && OnlyRepeats(turns, content)
    ensures Run(c, turns).ns == c.ns
    decreases |turns|
  {
    if turns != [] {
      var t := turns[0];
      assert t in turns;
      if t.Env? {
        EnvironmentRests(c.ns, t.e, content);
      } else if t.Answer? {
        AnswerRepeats(c, t.r, content);
      }
      ReconcilingAgainChangesNothing(Step(c, t), turns[1..], content);
    }
  }

  // ---- how the deployment gets in place

  /** How far the operation in flight has put the deployment in place. */
  predicate GettingInPlace(c: Config, content: Content) {
    var ns := c.ns;
    && (ns.shootMR.Some? ==> Live(ns.shootMR)) && (ns.seedMR.Some? ==> Live(ns.seedMR))
    && ns.around.shoot.Some? && !ns.around.shoot.value.deleting && !ns.around.shoot.value.hibernated
    && match c.pc
       case Idle(Succeeded(_)) => Deployed(ns, content) && (Publication(ns.around).Some? ==> Published(ns))
       case Idle(_) => true
       case AtCluster(job) => job.plan == Success(content)
       case AtDeploy(_, mine, shoot) => mine == content && Some(shoot) == ns.around.shoot
       case AtExternal(_, name, domain) =>
         Deployed(ns, content) && name == ns.around.shoot.value.name && Some(domain) == ns.around.shoot.value.domain
       case AtShootClient(_, domain, ref) => Deployed(ns, content) && Publishing(ns.around, domain, ref)
       case AtService(_, domain, ref) => Deployed(ns, content) && Publishing(ns.around, domain, ref)
       case AtSeed(_, spec) => Deployed(ns, content) && Publication(ns.around) == Some(spec)
       case _ => false
  }

  lemma StepGetsInPlace(c: Config, t: Turn, content: Content)
    requires GettingInPlace(c, content)
    requires t.Begin? ==> t.op.Deploying? && t.op.job.plan == Success(content)
    requires t.Env? ==> !t.e.Observe?
    ensures GettingInPlace(Step(c, t), content)
  {
    if t.Env? {
      EnvGetsInPlace(c, t.e, content);
    } else if t.Answer? {
      AnswerGetsInPlace(c, t.r, content);
    }
  }

  lemma EnvGetsInPlace(c: Config, e: EnvTurn, content: Content)
    requires GettingInPlace(c, content) && !e.Observe?
    ensures GettingInPlace(Step(c, Env(e)), content)
  {
  }

  lemma AnswerGetsInPlace(c: Config, r: Reply, content: Content)
    requires GettingInPlace(c, content)
    ensures GettingInPlace(Step(c, Answer(r)), content)
  {
  }

  lemma {:induction false} RunGetsInPlace(c: Config, turns: seq<Turn>, content: Content)
    requires GettingInPlace(c, content) && OnlyRepeats(turns, content)
    ensures GettingInPlace(Run(c, turns), content)
    decreases |turns|
  {
    if turns != [] {
      assert turns[0] in turns;
      StepGetsInPlace(c, turns[0], content);
      RunGetsInPlace(Step(c, turns[0]), turns[1..], content);
    }
  }

  /**
   A reconciliation that succeeds for an active shoot, over whatever live resources were there, puts the deployment in
   place; once resource-manager has caught up, any further reconciliation of the same content changes nothing.
   */
  lemma SuccessThenNothingMore(ns: Namespace, job: Job, first: seq<Turn>, again: seq<Turn>)
    requires job.plan.Success? && GettingInPlace(Config(ns, AtCluster(job)), job.plan.value)
    requires OnlyRepeats(first, job.plan.value) && OnlyRepeats(again, job.plan.value)
    requires var mid := Run(Config(ns, AtCluster(job)), first);
             && mid.pc.Idle? && mid.pc.last.Succeeded? && W.Settled(mid.ns) && !T.RecordUnsynced(mid.ns)
             && (mid.ns.record.Some? ==> !mid.ns.record.value.terminating)
    ensures InPlace(Run(Config(ns, AtCluster(job)), first).ns, job.plan.value)
    ensures Run(Config(ns, AtCluster(job)), first + again).ns == Run(Config(ns, AtCluster(job)), first).ns
  {
    RunGetsInPlace(Config(ns, AtCluster(job)), first, job.plan.value);
    RunAppend(Config(ns, AtCluster(job)), first, again);
    ReconcilingAgainChangesNothing(Run(Config(ns, AtCluster(job)), first), again, job.plan.value);
  }
}
