/** All five operations in any order: exactly which calls put objects of the shoot at risk. */
module Redeployment {
  import opened Wrappers
  import opened Objects
  import opened Cluster
  import opened Lifecycle
  import T = Termination
  import W = Workload
  import X = CrashConsistency

  /** Whatever the environment does from here on, the objects stay. */
  ghost predicate NeverLost(ns: Namespace, kept: set<ObjKey>) {
    forall more :: kept <= EnvironmentOnly(ns, more).objects.Keys
  }

  /** At no point of the run can the environment take any of the objects. */
  ghost predicate SafeThroughout(c: Config, turns: seq<Turn>, kept: set<ObjKey>)
    decreases |turns|
  {
    NeverLost(c.ns, kept) && (turns != [] ==> SafeThroughout(Step(c, turns[0]), turns[1..], kept))
  }

  /** The objects are there, and resource-manager is neither deleting nor pruning any of them. */
  predicate Guarded(ns: Namespace, kept: set<ObjKey>) {
    kept <= W.WorkloadOf(ns) && (Doomed(ns.shootMR) ==> ns.shootMR.value.applied !! kept)
  }

  predicate TracksAny(mr: Option<ManagedResource>, kept: set<ObjKey>) {
    mr.Some? && !(mr.value.applied !! kept)
  }

  /**
   The calls that put tracked objects at risk when they take effect: a write over a resource marked terminating, which
   clears the flag over the pending deletion; a write that no longer lists the object; and a deletion without the
   flag.
   */
  predicate Endangers(x: Exchange, kept: set<ObjKey>) {
    && x.r != Err && TracksAny(x.ns.shootMR, kept)
    && match x.pc
       case AtDeploy(_, content, _) =>
         x.ns.shootMR.value.terminating || !(x.ns.shootMR.value.applied * kept <= content.Keys)
       case AtDelete(_, _) => !x.ns.shootMR.value.keepObjects
       case _ => false
  }

  lemma {:induction false} GuardedIsNeverLost(ns: Namespace, more: seq<Turn>, kept: set<ObjKey>)
    requires Guarded(ns, kept)
    ensures kept <= EnvironmentOnly(ns, more).objects.Keys
    decreases |more|
  {
    if more != [] {
      GuardedIsNeverLost(if more[0].Env? then EnvStep(ns, more[0].e) else ns, more[1..], kept);
    }
  }

  lemma OneTurn(ns: Namespace, e: EnvTurn)
    ensures EnvironmentOnly(ns, [Env(e)]) == EnvStep(ns, e)
  {
    hide EnvStep;
    assert EnvironmentOnly(ns, [Env(e)]) == EnvironmentOnly(EnvStep(ns, e), []);
  }

  lemma LostOnceReachable(ns: Namespace, removal: EnvTurn, k: ObjKey)
    requires k !in EnvStep(EnvStep(ns, Observe(ns.around.(reachable := true))), removal).objects
    ensures exists more :: k !in EnvironmentOnly(ns, more).objects
  {
    hide EnvStep;
    var seen := Observe(ns.around.(reachable := true));
    OneTurn(ns, seen);
    OneTurn(EnvStep(ns, seen), removal);
    EnvironmentAppend(ns, [Env(seen)], [Env(removal)]);
    assert k !in EnvironmentOnly(ns, [Env(seen)] + [Env(removal)]).objects;
  }

  lemma NeverLostExactly(ns: Namespace, kept: set<ObjKey>)
    ensures NeverLost(ns, kept) <==> Guarded(ns, kept)
  {
    if Guarded(ns, kept) {
      forall more ensures kept <= EnvironmentOnly(ns, more).objects.Keys {
        GuardedIsNeverLost(ns, more, kept);
      }
    } else if k :| k in kept && k !in ns.objects {
      assert k !in EnvironmentOnly(ns, []).objects;
    } else if k :| k in kept && k in W.Stale(ns) {
      LostOnceReachable(ns, PruneObject(k), k);
    } else {
      var k :| k in kept && k in ns.shootMR.value.applied;
      LostOnceReachable(ns, DeleteObject(k), k);
    }
  }

  // ---- one step

  lemma DeployGuardsExactly(c: Config, r: Reply, kept: set<ObjKey>)
    requires Guarded(c.ns, kept) && c.pc.AtDeploy?
    ensures Guarded(Step(c, Answer(r)).ns, kept) <==> !Endangers(Exchange(c.pc, c.ns, r), kept)
  {
    var after := Step(c, Answer(r)).ns;
    if Endangers(Exchange(c.pc, c.ns, r), kept) {
      if c.ns.shootMR.value.terminating {
        var k :| k in c.ns.shootMR.value.applied && k in kept;
        assert k in after.shootMR.value.applied;
      } else {
        var k :| k in c.ns.shootMR.value.applied * kept && k !in c.pc.content;
        assert k in W.Stale(after);
      }
    } else if r != Err && c.ns.shootMR.Some? {
      assert forall k :: k in kept && k in c.ns.shootMR.value.applied ==> k in c.ns.shootMR.value.applied * kept;
    }
  }

  lemma DeletionGuardsExactly(c: Config, r: Reply, kept: set<ObjKey>)
    requires Guarded(c.ns, kept) && c.pc.AtDelete?
    ensures Guarded(Step(c, Answer(r)).ns, kept) <==> !Endangers(Exchange(c.pc, c.ns, r), kept)
  {
  }

  lemma OtherCallsGuard(c: Config, r: Reply, kept: set<ObjKey>)
    requires Guarded(c.ns, kept) && !c.pc.AtDeploy? && !c.pc.AtDelete?
    ensures Guarded(Step(c, Answer(r)).ns, kept)
  {
  }

  /** Only such a call can endanger what is guarded. */
  lemma StepGuardsExactly(c: Config, t: Turn, kept: set<ObjKey>)
    requires Guarded(c.ns, kept)
    ensures Guarded(Step(c, t).ns, kept) <==> forall x :: x in Exchanged(c, t) ==> !Endangers(x, kept)
  {
    match t
    case Env(_) =>
    case Answer(r) =>
      if c.pc.Idle? {
        assert Exchanged(c, t) == [];
      } else {
        assert Exchange(c.pc, c.ns, r) in Exchanged(c, t);
        if c.pc.AtDeploy? {
          DeployGuardsExactly(c, r, kept);
        } else if c.pc.AtDelete? {
          DeletionGuardsExactly(c, r, kept);
        } else {
          OtherCallsGuard(c, r, kept);
        }
      }
    case _ =>
  }

  lemma {:induction false} RunGuardsExactly(c: Config, turns: seq<Turn>, kept: set<ObjKey>)
    requires Guarded(c.ns, kept)
    ensures SafeThroughout(c, turns, kept) <==> forall x :: x in History(c, turns) ==> !Endangers(x, kept)
    decreases |turns|
  {
    NeverLostExactly(c.ns, kept);
    if turns != [] {
      var next := Step(c, turns[0]);
      StepGuardsExactly(c, turns[0], kept);
      if Guarded(next.ns, kept) {
        RunGuardsExactly(next, turns[1..], kept);
      } else {
        NeverLostExactly(next.ns, kept);
        assert !SafeThroughout(next, turns[1..], kept);
      }
    }
  }

  /**
   In every run of all five operations in any order, with any failures and crashes, given objects are safe at every
   point exactly if resource-manager is not removing any of them when it starts and no call of the run endangers one.
   */
  lemma RunsPreserveExactly(c: Config, turns: seq<Turn>, kept: set<ObjKey>)
    ensures SafeThroughout(c, turns, kept) <==>
            Guarded(c.ns, kept) && forall x :: x in History(c, turns) ==> !Endangers(x, kept)
  {
    NeverLostExactly(c.ns, kept);
    if Guarded(c.ns, kept) {
      RunGuardsExactly(c, turns, kept);
    }
  }

  // ---- and it happens

  lemma CrashWhileWaiting(c: Config)
    requires c.pc == AtKeep(Migrate, false)
    ensures Run(c, [Answer(Ok), Answer(Ok), Crash]) ==
            Config(c.ns.(shootMR := X.Marked(X.Flagged(c.ns.shootMR))), Idle(Crashed))
  {
    X.AnswerAtKeep(c, Ok);
    X.AnswerAtDelete(Step(c, Answer(Ok)), Ok);
    RunStep(c, Answer(Ok), [Answer(Ok), Crash]);
    RunStep(Step(c, Answer(Ok)), Answer(Ok), [Crash]);
    RunStep(Step(Step(c, Answer(Ok)), Answer(Ok)), Crash, []);
  }

  predicate ToBeReconciled(ns: Namespace) {
    ns.around.shoot.Some? && !ns.around.shoot.value.deleting && !ns.around.shoot.value.hibernated
  }

  lemma DeployOverDeletion(ns: Namespace, last: Outcome, job: Job, k: ObjKey)
    requires ns.shootMR.Some? && ns.shootMR.value.terminating && k in ns.shootMR.value.applied
    requires ns.around.reachable && ToBeReconciled(ns) && job.plan.Success?
    ensures var turns := [Begin(Deploying(job)), Answer(Ok), Answer(Ok), Env(DeleteObject(k))];
            k !in Run(Config(ns, Idle(last)), turns).ns.objects
  {
    var c := Config(ns, AtCluster(job));
    var d := Config(ns, AtDeploy(job, job.plan.value, ns.around.shoot.value));
    RunStep(Config(ns, Idle(last)), Begin(Deploying(job)), [Answer(Ok), Answer(Ok), Env(DeleteObject(k))]);
    RunStep(c, Answer(Ok), [Answer(Ok), Env(DeleteObject(k))]);
    RunStep(d, Answer(Ok), [Env(DeleteObject(k))]);
    RunStep(Step(d, Answer(Ok)), Env(DeleteObject(k)), []);
  }

  /**
   A Migrate abandoned while it waits and a Reconcile after it, not one call of either failing: the Migrate has left
   every object in place, and once the Reconcile has written, resource-manager deletes any object it tracks.
   */
  lemma ReconcileAfterAbandonedMigrate(ns: Namespace, job: Job, k: ObjKey) returns (dns: seq<Turn>)
    requires ns.shootMR.Some? && k in ns.shootMR.value.applied
    requires ns.around.reachable && ToBeReconciled(ns) && job.plan.Success?
    ensures T.AllProductive(dns)
    ensures var migrating := [Begin(TearingDown(Migrate))] + (dns + [Answer(Ok), Answer(Ok), Crash]);
            var deploying := [Begin(Deploying(job)), Answer(Ok), Answer(Ok), Env(DeleteObject(k))];
            && Run(Fresh(ns), migrating).ns.objects == ns.objects
            && k !in Run(Fresh(ns), migrating + deploying).ns.objects
  {
    var start := Config(ns, AtDnsKeep(Migrate));
    dns := X.DnsPartCompletes(start, Migrate);
    var crashing := [Answer(Ok), Answer(Ok), Crash];
    CrashWhileWaiting(Run(start, dns));
    RunAppend(start, dns, crashing);
    RunStep(Fresh(ns), Begin(TearingDown(Migrate)), dns + crashing);
    var left := Run(Fresh(ns), [Begin(TearingDown(Migrate))] + (dns + crashing));
    DeployOverDeletion(left.ns, Crashed, job, k);
    RunAppend(Fresh(ns), [Begin(TearingDown(Migrate))] + (dns + crashing),
              [Begin(Deploying(job)), Answer(Ok), Answer(Ok), Env(DeleteObject(k))]);
  }
}
