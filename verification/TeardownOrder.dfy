/** The DNS resource on the seed never outlives the Traefik resource it publishes. */
module TeardownOrder {
  import opened Wrappers
  import opened Objects
  import opened Cluster
  import opened Lifecycle
  import D = DnsTeardown

  /** No force-delete, and no deployment begun while the shoot resource is being deleted. */
  ghost predicate Disciplined(c: Config, turns: seq<Turn>)
    decreases |turns|
  {
    turns == [] || (AllowedNow(c, turns[0]) && Disciplined(Step(c, turns[0]), turns[1..]))
  }

  predicate AllowedNow(c: Config, t: Turn) {
    t.Begin? ==>
      if t.op.TearingDown? then t.op.kind != ForceDelete else c.ns.shootMR.None? || Live(c.ns.shootMR)
  }

  predicate Ordered(c: Config) {
    && Inv(c)
    && (c.ns.seedMR.Some? ==> Live(c.ns.shootMR))
    && KindAt(c.pc) != Some(ForceDelete)
    && match c.pc
       case AtCluster(_) => c.ns.shootMR.None? || Live(c.ns.shootMR)
       case AtDeploy(_, _, _) => c.ns.shootMR.None? || Live(c.ns.shootMR)
       case AtExternal(_, _, _) => Live(c.ns.shootMR)
       case AtShootClient(_, _, _) => Live(c.ns.shootMR)
       case AtService(_, _, _) => Live(c.ns.shootMR)
       case AtSeed(_, _) => Live(c.ns.shootMR)
       case _ => true
  }

  lemma StepKeepsOrder(c: Config, t: Turn)
    requires Ordered(c) && AllowedNow(c, t)
    ensures Ordered(Step(c, t))
  {
    StepKeepsInv(c, t);
    match t
    case Env(e) => EnvKeepsOrder(c, e);
    case Answer(r) => AnswerKeepsOrder(c, r);
    case Crash =>
    case Begin(_) =>
  }

  lemma EnvKeepsOrder(c: Config, e: EnvTurn)
    requires Ordered(c)
    ensures Ordered(Step(c, Env(e)))
  {
    EnvKeepsInv(c, e);
  }

  lemma AnswerKeepsOrder(c: Config, r: Reply)
    requires Ordered(c)
    ensures Ordered(Step(c, Answer(r)))
  {
    AnswerKeepsInv(c, r);
  }

  lemma {:induction false} RunKeepsOrder(c: Config, turns: seq<Turn>)
    requires Ordered(c) && Disciplined(c, turns)
    ensures Ordered(Run(c, turns))
    decreases |turns|
  {
    if turns != [] {
      StepKeepsOrder(c, turns[0]);
      RunKeepsOrder(Step(c, turns[0]), turns[1..]);
    }
  }

  /**
   In every disciplined run, of an empty namespace for one, the seed resource exists only while the shoot resource is
   there and live.
   */
  lemma SeedResourceNeedsShootResource(ns: Namespace, turns: seq<Turn>)
    requires (ns.seedMR.Some? ==> Live(ns.shootMR)) && Disciplined(Fresh(ns), turns)
    ensures Run(Fresh(ns), turns).ns.seedMR.Some? ==> Live(Run(Fresh(ns), turns).ns.shootMR)
  {
    RunKeepsOrder(Fresh(ns), turns);
  }

  // ---- the calls that break the order

  /** Whatever the environment does from here on, the seed resource does not outlive the shoot resource. */
  ghost predicate InOrder(ns: Namespace) {
    forall more :: EnvironmentOnly(ns, more).seedMR.Some? ==> EnvironmentOnly(ns, more).shootMR.Some?
  }

  ghost predicate InOrderThroughout(c: Config, turns: seq<Turn>)
    decreases |turns|
  {
    InOrder(c.ns) && (turns != [] ==> InOrderThroughout(Step(c, turns[0]), turns[1..]))
  }

  predicate Supported(ns: Namespace) {
    ns.seedMR.Some? ==> Live(ns.shootMR)
  }

  /** A record published without a live shoot resource, or the shoot resource deleted with the seed resource there. */
  predicate Disturbs(x: Exchange) {
    && x.r != Err
    && (|| (x.pc.AtSeed? && !Live(x.ns.shootMR))
        || (x.pc.AtDelete? && x.ns.shootMR.Some? && x.ns.seedMR.Some?))
  }

  lemma {:induction false} SupportedStays(ns: Namespace, more: seq<Turn>)
    requires Supported(ns)
    ensures Supported(EnvironmentOnly(ns, more))
    decreases |more|
  {
    if more != [] {
      SupportedStays(if more[0].Env? then EnvStep(ns, more[0].e) else ns, more[1..]);
    }
  }

  /** Resource-manager can release a terminating shoot resource ahead of the seed resource. */
  lemma ShootResourceCanGoFirst(ns: Namespace) returns (more: seq<Turn>)
    requires ns.shootMR.Some? && ns.shootMR.value.terminating && ns.around.reachable
    ensures EnvironmentOnly(ns, more).shootMR.None? && EnvironmentOnly(ns, more).seedMR == ns.seedMR
    decreases |ns.shootMR.value.applied|
  {
    var mr := ns.shootMR.value;
    if mr.keepObjects || mr.applied == {} {
      more := [Env(FinalizeShootMR)];
      assert EnvironmentOnly(ns, more) == EnvironmentOnly(EnvStep(ns, FinalizeShootMR), []);
    } else {
      var k :| k in mr.applied;
      var rest := ShootResourceCanGoFirst(EnvStep(ns, DeleteObject(k)));
      more := [Env(DeleteObject(k))] + rest;
      assert more[1..] == rest;
    }
  }

  lemma InOrderExactly(ns: Namespace)
    ensures InOrder(ns) <==> Supported(ns)
  {
    if Supported(ns) {
      forall more ensures EnvironmentOnly(ns, more).seedMR.Some? ==> EnvironmentOnly(ns, more).shootMR.Some? {
        SupportedStays(ns, more);
      }
    } else if ns.shootMR.None? {
      assert EnvironmentOnly(ns, []) == ns;
    } else {
      var seen := Observe(ns.around.(reachable := true));
      var rest := ShootResourceCanGoFirst(EnvStep(ns, seen));
      var more := [Env(seen)] + rest;
      assert more[1..] == rest;
      assert EnvironmentOnly(ns, more) == EnvironmentOnly(EnvStep(ns, seen), rest);
    }
  }

  lemma StepSupportsExactly(c: Config, t: Turn)
    requires Supported(c.ns)
    ensures Supported(Step(c, t).ns) <==> forall x :: x in Exchanged(c, t) ==> !Disturbs(x)
  {
    if t.Answer? {
      AnswerSupportsExactly(c, t.r);
    }
    assert t.Answer? && !c.pc.Idle? ==> Exchange(c.pc, c.ns, t.r) in Exchanged(c, t);
  }

  lemma AnswerSupportsExactly(c: Config, r: Reply)
    requires Supported(c.ns)
    ensures Supported(Step(c, Answer(r)).ns) <==> c.pc.Idle? || !Disturbs(Exchange(c.pc, c.ns, r))
  {
  }

  /**
   In every run of all five operations, the seed resource is certain at every point not to outlive the shoot resource
   exactly if it was at the start and no effective call of the run publishes without a live shoot resource or deletes
   the shoot resource with the seed resource still there.
   */
  lemma {:induction false} RunsKeepOrderExactly(c: Config, turns: seq<Turn>)
    ensures InOrderThroughout(c, turns) <==> Supported(c.ns) && forall x :: x in History(c, turns) ==> !Disturbs(x)
    decreases |turns|
  {
    InOrderExactly(c.ns);
    if turns != [] && Supported(c.ns) {
      StepSupportsExactly(c, turns[0]);
      RunsKeepOrderExactly(Step(c, turns[0]), turns[1..]);
    }
  }

  /** Of the teardowns, only a ForceDelete whose DNS part has failed makes the second of these calls. */
  lemma OnlyForceDeleteDisturbs(ns: Namespace, turns: seq<Turn>, x: Exchange)
    requires x in History(Fresh(ns), turns) && Disturbs(x)
    ensures x.pc.AtSeed? || (x.pc.kind == ForceDelete && x.pc.dnsErrored)
  {
    HistoryKeepsInv(Fresh(ns), turns, x);
  }

  /**
   The first undisciplined act: a force-delete whose DNS part fails removes the shoot resource and leaves the seed's.
   */
  lemma ForceDeleteBreaksTheOrder(ns: Namespace)
    requires ns.shootMR.Some? && ns.seedMR.Some?
    ensures var end := Run(Fresh(ns), D.ForceDeleteWithDnsError()).ns; end.seedMR == ns.seedMR && end.shootMR.None?
  {
    D.ForceDeleteMayLeaveRecord(ns);
  }

  /** The second: a deployment begun while the shoot resource is going may publish a record after it is gone. */
  lemma DeployingOverADeletionBreaksTheOrder(ns: Namespace, job: Job, domain: string)
    requires ns.shootMR.Some? && ns.shootMR.value.terminating && ns.shootMR.value.applied == {} && ns.around.reachable
    requires ns.around.shoot.Some? && !ns.around.shoot.value.deleting && !ns.around.shoot.value.hibernated
    requires ns.around.shoot.value.domain == Some(domain) && job.plan.Success?
    requires (ns.around.shoot.value.name + "-external") in ns.around.externals
    requires SERVICE_KEY in ns.objects && LbAddress(ns.around.loadBalancer) != ""
    ensures var end := Run(Fresh(ns), [Begin(Deploying(job))] + (Oks(5) + ([Env(FinalizeShootMR)] + Oks(1)))).ns;
            end.shootMR.None? && end.seedMR.Some?
  {
    var finish := [Env(FinalizeShootMR)] + Oks(1);
    RunStep(Fresh(ns), Begin(Deploying(job)), Oks(5) + finish);
    var c := Config(ns, AtCluster(job));
    RunAppend(c, Oks(5), finish);
    RunStep(c, Answer(Ok), Oks(4));
    var written := ns.(shootMR := Upserted(ns.shootMR, job.plan.value));
    var shoot := ns.around.shoot.value;
    RunStep(Config(ns, AtDeploy(job, job.plan.value, shoot)), Answer(Ok), Oks(3));
    ReadsLeadToPublication(written, job, shoot.name, domain);
    PublishAfterDeletion(Run(Config(written, AtExternal(job, shoot.name, domain)), Oks(3)));
  }

  /** The three reads before a record is published. */
  lemma ReadsLeadToPublication(ns: Namespace, job: Job, shootName: string, domain: string)
    requires ns.around.reachable && (shootName + "-external") in ns.around.externals
    requires SERVICE_KEY in ns.objects && LbAddress(ns.around.loadBalancer) != ""
    ensures var c := Run(Config(ns, AtExternal(job, shootName, domain)), Oks(3)); c.ns == ns && c.pc.AtSeed?
  {
    var ref := ns.around.externals[shootName + "-external"];
    RunStep(Config(ns, AtExternal(job, shootName, domain)), Answer(Ok), Oks(2));
    RunStep(Config(ns, AtShootClient(job, domain, ref)), Answer(Ok), Oks(1));
    RunStep(Config(ns, AtService(job, domain, ref)), Answer(Ok), Oks(0));
  }

  lemma PublishAfterDeletion(c: Config)
    requires c.pc.AtSeed?
    requires c.ns.shootMR.Some? && c.ns.shootMR.value.terminating && c.ns.shootMR.value.applied == {}
    ensures var end := Run(c, [Env(FinalizeShootMR)] + Oks(1)).ns; end.shootMR.None? && end.seedMR.Some?
  {
    RunStep(c, Env(FinalizeShootMR), Oks(1));
    RunStep(Step(c, Env(FinalizeShootMR)), Answer(Ok), Oks(0));
  }
}
