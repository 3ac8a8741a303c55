/**
 The deployer and the actuator as they are written: sequences of calls with early returns. Each method is proved to take
 the operation's machine from one program counter to another on its own namespace, and to leave every other namespace to
 the environment. What the other modules prove of all runs therefore holds of these methods.
 */
module Operations {
  import opened Objects
  import opened Cluster
  import opened Lifecycle
  import opened Api
  import S = Settings
  import G = Generator

  /** The trace grew by a run that took the operation from `pc` to `now`. */
  ghost predicate Advanced(s: Store, before: seq<Move>, namespace: string, pc: Pc, t: Store, after: seq<Move>,
                           now: Pc)
  {
    before <= after && Reached(s, after[|before|..], namespace, pc, t, now)
  }

  lemma NotYet(s: Store, trace: seq<Move>, namespace: string, pc: Pc)
    ensures Advanced(s, trace, namespace, pc, s, trace, pc)
  {
    assert trace[|trace|..] == [];
  }

  lemma Then(s: Store, t0: seq<Move>, namespace: string, p: Pc, t: Store, t1: seq<Move>, q: Pc, u: Store, t2: seq<Move>,
             answer: Response)
    requires Advanced(s, t0, namespace, p, t, t1, q) && !q.Idle?
    requires Replied(t, t1, namespace, CallAt(q), u, t2, answer)
    ensures Advanced(s, t0, namespace, p, u, t2, Resume(q, answer))
  {
    assert t2[|t0|..] == t1[|t0|..] + t2[|t1|..];
    assert Reached(t, t2[|t1|..], namespace, q, u, Resume(q, answer));
    ReachedAppend(s, t1[|t0|..], t, t2[|t1|..], u, namespace, p, q, Resume(q, answer));
  }

  lemma Onwards(s: Store, t0: seq<Move>, namespace: string, p: Pc, t: Store, t1: seq<Move>, q: Pc, u: Store,
                t2: seq<Move>, r: Pc)
    requires Advanced(s, t0, namespace, p, t, t1, q) && Advanced(t, t1, namespace, q, u, t2, r)
    ensures Advanced(s, t0, namespace, p, u, t2, r)
  {
    assert t2[|t0|..] == t1[|t0|..] + t2[|t1|..];
    ReachedAppend(s, t1[|t0|..], t, t2[|t1|..], u, namespace, p, q, r);
  }

  /** An operation that started as a teardown and has come to `now` keeps what the invariant promises there. */
  lemma TeardownPromise(s: Store, t0: seq<Move>, namespace: string, kind: Teardown, t: Store, t1: seq<Move>, now: Pc)
    requires Advanced(s, t0, namespace, AtDnsKeep(kind), t, t1, now)
    ensures Inv(Config(Project(t, namespace), now))
  {
    RunKeepsInv(Config(Project(s, namespace), AtDnsKeep(kind)), Mine(t1[|t0|..], namespace));
  }

  class Deployer {
    const client: Client
    const config: S.Config
    const build: G.BuildEnv

    constructor (client: Client, config: S.Config, build: G.BuildEnv)
      ensures this.client == client && this.config == config && this.build == build
    {
      this.client, this.config, this.build := client, config, build;
    }

    /** First part of DeleteDNSRecord: resource-manager lets go of the record. */
    method ReleaseSeedResource(namespace: string, ghost kind: Teardown) returns (err: bool)
      modifies client
      ensures Advanced(old(client.store), old(client.trace), namespace, AtDnsKeep(kind),
                       client.store, client.trace, if err then AfterDns(kind, true) else AtDnsGet(kind))
    {
      hide Advanced, Replied;
      ghost var s0, t0, start := client.store, client.trace, AtDnsKeep(kind);
      NotYet(s0, t0, namespace, start);

      var answer := client.SetKeepObjects(namespace, SeedMR);
      Then(s0, t0, namespace, start, s0, t0, start, client.store, client.trace, answer);
      if !answer.Done? && !answer.NotFound? {
        return true;
      }
      ghost var s, t := client.store, client.trace;

      answer := client.DeleteResource(namespace, SeedMR);
      Then(s0, t0, namespace, start, s, t, AtDnsDelete(kind), client.store, client.trace, answer);
      if !answer.Done? {
        return true;
      }
      s, t := client.store, client.trace;

      answer := client.WaitUntilDeleted(namespace, SeedMR);
      Then(s0, t0, namespace, start, s, t, AtDnsWait(kind), client.store, client.trace, answer);
      return !answer.Done?;
    }

    /** Second part: confirm and delete the record directly. */
    method DropRecord(namespace: string, ghost kind: Teardown) returns (err: bool)
      modifies client
      ensures Advanced(old(client.store), old(client.trace), namespace, AtDnsGet(kind),
                       client.store, client.trace, AfterDns(kind, err))
    {
      hide Advanced, Replied;
      ghost var s0, t0, start := client.store, client.trace, AtDnsGet(kind);
      NotYet(s0, t0, namespace, start);

      var answer := client.GetRecord(namespace);
      Then(s0, t0, namespace, start, s0, t0, start, client.store, client.trace, answer);
      if !answer.GotRecord? {
        return !answer.NotFound?;
      }
      ghost var s, t := client.store, client.trace;

      // The local copy is annotated and sent as a patch against what was fetched.
      var base := answer.record;
      var dnsRecord := base.(confirmed := true);
      answer := client.PatchRecord(namespace, base, dnsRecord);
      Then(s0, t0, namespace, start, s, t, AtDnsPatch(kind, base), client.store, client.trace, answer);
      if !answer.Done? {
        return true;
      }
      s, t := client.store, client.trace;

      answer := client.DeleteRecord(namespace);
      Then(s0, t0, namespace, start, s, t, AtDnsDrop(kind), client.store, client.trace, answer);
      err := !answer.Done? && !answer.NotFound?;
      assert Resume(AtDnsDrop(kind), answer) == AfterDns(kind, err);
    }

    method DeleteDNSRecord(namespace: string, ghost kind: Teardown) returns (err: bool)
      modifies client
      ensures Advanced(old(client.store), old(client.trace), namespace, AtDnsKeep(kind),
                       client.store, client.trace, AfterDns(kind, err))
      ensures !err ==> DnsClean(Project(client.store, namespace))
    {
      ghost var s0, t0 := client.store, client.trace;
      err := ReleaseSeedResource(namespace, kind);
      if err {
        return;
      }
      ghost var s, t := client.store, client.trace;
      err := DropRecord(namespace, kind);
      Onwards(s0, t0, namespace, AtDnsKeep(kind), s, t, AtDnsGet(kind), client.store, client.trace,
              AfterDns(kind, err));
      TeardownPromise(s0, t0, namespace, kind, client.store, client.trace, AfterDns(kind, err));
    }

    method DeleteManagedResource(namespace: string, ghost kind: Teardown, ghost dnsErrored: bool) returns (err: bool)
      modifies client
      ensures Advanced(old(client.store), old(client.trace), namespace, AtDelete(kind, dnsErrored),
                       client.store, client.trace, if err then Fail(TearingDown(kind)) else Finish(TearingDown(kind)))
    {
      hide Advanced, Replied;
      ghost var s0, t0, start := client.store, client.trace, AtDelete(kind, dnsErrored);
      NotYet(s0, t0, namespace, start);

      var answer := client.DeleteResource(namespace, ShootMR);
      Then(s0, t0, namespace, start, s0, t0, start, client.store, client.trace, answer);
      if !answer.Done? {
        return true;
      }
      ghost var s, t := client.store, client.trace;

      answer := client.WaitUntilDeleted(namespace, ShootMR);
      Then(s0, t0, namespace, start, s, t, AtWait(kind, dnsErrored), client.store, client.trace, answer);
      return !answer.Done?;
    }

    method Delete(namespace: string) returns (err: bool)
      modifies client
      ensures Advanced(old(client.store), old(client.trace), namespace, AtDelete(Teardown.Delete, false),
                       client.store, client.trace,
                       if err then Fail(TearingDown(Teardown.Delete)) else Finish(TearingDown(Teardown.Delete)))
    {
      err := DeleteManagedResource(namespace, Teardown.Delete, false);
    }

    method DeleteKeepingObjects(namespace: string, ghost kind: Teardown, ghost dnsErrored: bool) returns (err: bool)
      modifies client
      ensures Advanced(old(client.store), old(client.trace), namespace, AtKeep(kind, dnsErrored),
                       client.store, client.trace, if err then Fail(TearingDown(kind)) else Finish(TearingDown(kind)))
    {
      hide Advanced, Replied;
      ghost var s0, t0, start := client.store, client.trace, AtKeep(kind, dnsErrored);
      NotYet(s0, t0, namespace, start);

      var answer := client.SetKeepObjects(namespace, ShootMR);
      Then(s0, t0, namespace, start, s0, t0, start, client.store, client.trace, answer);
      ghost var s, t, pc := client.store, client.trace, Resume(start, answer);
      if !answer.Done? && !answer.NotFound? {
        return true;
      }

      err := DeleteManagedResource(namespace, kind, dnsErrored);
      Onwards(s0, t0, namespace, start, s, t, pc, client.store, client.trace,
              if err then Fail(TearingDown(kind)) else Finish(TearingDown(kind)));
    }

    /** Generates the bundle and, if that works, creates or updates the shoot resource. */
    method Deploy(namespace: string, ghost job: Job, ghost shoot: Shoot) returns (err: bool)
      requires job.plan == G.PlanOf(config, build)
      modifies client
      ensures job.plan.Failure? ==> err && client.store == old(client.store) && client.trace == old(client.trace)
      ensures job.plan.Success? ==>
                Advanced(old(client.store), old(client.trace), namespace, AtDeploy(job, job.plan.value, shoot),
                         client.store, client.trace,
                         if err then Fail(Deploying(job))
                         else if shoot.domain.None? then Finish(Deploying(job))
                         else AtExternal(job, shoot.name, shoot.domain.value))
    {
      var resources := G.GenerateContent(config, build);
      if resources.Failure? {
        return true;
      }
      ghost var s0, t0, start := client.store, client.trace, AtDeploy(job, job.plan.value, shoot);
      NotYet(s0, t0, namespace, start);
      var answer := client.CreateForShoot(namespace, resources.value);
      Then(s0, t0, namespace, start, s0, t0, start, client.store, client.trace, answer);
      return !answer.Done?;
    }

    method DeployDNSRecord(namespace: string, lbAddress: string, dnsName: string, ref: DnsRef, ghost job: Job)
      returns (err: bool)
      modifies client
      ensures Advanced(old(client.store), old(client.trace), namespace, AtSeed(job, DnsSpec(ref, dnsName, [lbAddress])),
                       client.store, client.trace, if err then Fail(Deploying(job)) else Finish(Deploying(job)))
    {
      ghost var s0, t0, start := client.store, client.trace, AtSeed(job, DnsSpec(ref, dnsName, [lbAddress]));
      NotYet(s0, t0, namespace, start);
      var answer := client.CreateForSeed(namespace, DnsSpec(ref, dnsName, [lbAddress]));
      Then(s0, t0, namespace, start, s0, t0, start, client.store, client.trace, answer);
      return !answer.Done?;
    }
  }

  datatype Operation = ReconcileOp | DeleteOp | ForceDeleteOp | RestoreOp | MigrateOp

  function Count(totals: map<(string, Operation), nat>, cluster: string, op: Operation): nat {
    if (cluster, op) in totals then totals[(cluster, op)] else 0
  }

  function Counted(totals: map<(string, Operation), nat>, cluster: string, op: Operation)
    : map<(string, Operation), nat>
  {
    totals[(cluster, op) := Count(totals, cluster, op) + 1]
  }

  /** The counts of exactly these operations of the cluster have gone up by one. */
  ghost predicate WentUp(before: map<(string, Operation), nat>, after: map<(string, Operation), nat>, cluster: string,
                         ops: set<Operation>)
  {
    forall c, op :: Count(after, c, op) == Count(before, c, op) + if c == cluster && op in ops then 1 else 0
  }

  lemma CountedWentUp(totals: map<(string, Operation), nat>, cluster: string, op: Operation)
    ensures WentUp(totals, Counted(totals, cluster, op), cluster, {op})
  {
  }

  /** First LoadBalancer address of a service, by a loop with early returns. */
  method LbAddressFromService(ingresses: seq<LbIngress>) returns (address: string)
    ensures address == LbAddress(ingresses)
  {
    for i := 0 to |ingresses|
      invariant LbAddress(ingresses) == LbAddress(ingresses[i..])
    {
      assert ingresses[i..][1..] == ingresses[i + 1..];
      if ingresses[i].ip != "" {
        return ingresses[i].ip;
      }
      if ingresses[i].hostname != "" {
        return ingresses[i].hostname;
      }
    }
    return "";
  }

  class Actuator {
    const client: Client
    const build: G.BuildEnv
    var totals: map<(string, Operation), nat>

    constructor (client: Client, build: G.BuildEnv)
      ensures this.client == client && this.build == build && totals == map[]
    {
      this.client, this.build, totals := client, build, map[];
    }

    method Delete(namespace: string) returns (err: bool)
      modifies client, this`totals
      ensures Advanced(old(client.store), old(client.trace), namespace, Start(TearingDown(Teardown.Delete)),
                       client.store, client.trace,
                       if err then Fail(TearingDown(Teardown.Delete)) else Finish(TearingDown(Teardown.Delete)))
      ensures !err ==> Project(client.store, namespace).shootMR.None? && DnsClean(Project(client.store, namespace))
      ensures totals == Counted(old(totals), namespace, DeleteOp)
      ensures WentUp(old(totals), totals, namespace, {DeleteOp})
    {
      CountedWentUp(totals, namespace, DeleteOp);
      totals := Counted(totals, namespace, DeleteOp);
      var deployer := new Deployer(client, S.DEFAULT_CONFIG, build);
      ghost var s0, t0 := client.store, client.trace;
      err := deployer.DeleteDNSRecord(namespace, Teardown.Delete);
      if err {
        return;
      }
      ghost var s, t := client.store, client.trace;
      err := deployer.Delete(namespace);
      Onwards(s0, t0, namespace, AtDnsKeep(Teardown.Delete), s, t, AtDelete(Teardown.Delete, false),
              client.store, client.trace,
              if err then Fail(TearingDown(Teardown.Delete)) else Finish(TearingDown(Teardown.Delete)));
      if !err {
        TeardownPromise(s0, t0, namespace, Teardown.Delete, client.store, client.trace,
                        Finish(TearingDown(Teardown.Delete)));
      }
    }

    /** The DNS part is best effort: its error is noted and the shoot resource is released all the same. */
    method ForceDelete(namespace: string) returns (err: bool)
      modifies client, this`totals
      ensures Advanced(old(client.store), old(client.trace), namespace, Start(TearingDown(Teardown.ForceDelete)),
                       client.store, client.trace,
                       if err then Fail(TearingDown(Teardown.ForceDelete))
                       else Finish(TearingDown(Teardown.ForceDelete)))
      ensures !err ==> Project(client.store, namespace).shootMR.None?
      ensures totals == Counted(old(totals), namespace, ForceDeleteOp)
      ensures WentUp(old(totals), totals, namespace, {ForceDeleteOp})
    {
      CountedWentUp(totals, namespace, ForceDeleteOp);
      totals := Counted(totals, namespace, ForceDeleteOp);
      var deployer := new Deployer(client, S.DEFAULT_CONFIG, build);
      ghost var s0, t0 := client.store, client.trace;
      var dnsErr := deployer.DeleteDNSRecord(namespace, Teardown.ForceDelete);
      ghost var s, t := client.store, client.trace;
      err := deployer.DeleteKeepingObjects(namespace, Teardown.ForceDelete, dnsErr);
      Onwards(s0, t0, namespace, AtDnsKeep(Teardown.ForceDelete), s, t, AtKeep(Teardown.ForceDelete, dnsErr),
              client.store, client.trace,
              if err then Fail(TearingDown(Teardown.ForceDelete)) else Finish(TearingDown(Teardown.ForceDelete)));
      if !err {
        TeardownPromise(s0, t0, namespace, Teardown.ForceDelete, client.store, client.trace,
                        Finish(TearingDown(Teardown.ForceDelete)));
      }
    }

    method Migrate(namespace: string) returns (err: bool)
      modifies client, this`totals
      ensures Advanced(old(client.store), old(client.trace), namespace, Start(TearingDown(Teardown.Migrate)),
                       client.store, client.trace,
                       if err then Fail(TearingDown(Teardown.Migrate)) else Finish(TearingDown(Teardown.Migrate)))
      ensures !err ==> Project(client.store, namespace).shootMR.None? && DnsClean(Project(client.store, namespace))
      ensures totals == Counted(old(totals), namespace, MigrateOp)
      ensures WentUp(old(totals), totals, namespace, {MigrateOp})
    {
      CountedWentUp(totals, namespace, MigrateOp);
      totals := Counted(totals, namespace, MigrateOp);
      var deployer := new Deployer(client, S.DEFAULT_CONFIG, build);
      ghost var s0, t0 := client.store, client.trace;
      err := deployer.DeleteDNSRecord(namespace, Teardown.Migrate);
      if err {
        return;
      }
      ghost var s, t := client.store, client.trace;
      err := deployer.DeleteKeepingObjects(namespace, Teardown.Migrate, false);
      Onwards(s0, t0, namespace, AtDnsKeep(Teardown.Migrate), s, t, AtKeep(Teardown.Migrate, false),
              client.store, client.trace,
              if err then Fail(TearingDown(Teardown.Migrate)) else Finish(TearingDown(Teardown.Migrate)));
      if !err {
        TeardownPromise(s0, t0, namespace, Teardown.Migrate, client.store, client.trace,
                        Finish(TearingDown(Teardown.Migrate)));
      }
    }

    method ReconcileDNSRecord(namespace: string, shoot: Shoot, deployer: Deployer, ghost job: Job) returns (err: bool)
      requires deployer.client == client
      modifies client
      ensures var start := if shoot.domain.None? then Finish(Deploying(job))
                           else AtExternal(job, shoot.name, shoot.domain.value);
              Advanced(old(client.store), old(client.trace), namespace, start, client.store, client.trace,
                       if err then Fail(Deploying(job)) else Finish(Deploying(job)))
    {
      hide Advanced, Replied;
      ghost var s0, t0 := client.store, client.trace;
      if shoot.domain.None? {
        NotYet(s0, t0, namespace, Finish(Deploying(job)));
        return false;
      }
      var domain := shoot.domain.value;
      ghost var start := AtExternal(job, shoot.name, domain);
      ghost var s, t, pc := s0, t0, start;
      NotYet(s0, t0, namespace, start);

      var answer := client.GetExternalRecord(namespace, shoot.name + "-external");
      Then(s0, t0, namespace, start, s, t, pc, client.store, client.trace, answer);
      s, t, pc := client.store, client.trace, Resume(pc, answer);
      if !answer.GotRef? {
        return !answer.NotFound?;
      }
      var ref := answer.ref;

      answer := client.NewShootClient(namespace);
      Then(s0, t0, namespace, start, s, t, pc, client.store, client.trace, answer);
      s, t, pc := client.store, client.trace, Resume(pc, answer);
      if !answer.Done? {
        return true;
      }

      answer := client.GetService(namespace);
      Then(s0, t0, namespace, start, s, t, pc, client.store, client.trace, answer);
      s, t, pc := client.store, client.trace, Resume(pc, answer);
      if !answer.GotService? {
        return true;
      }
      var lbAddress := LbAddressFromService(answer.loadBalancer);
      if lbAddress == "" {
        return true;
      }

      err := deployer.DeployDNSRecord(namespace, lbAddress, "*.ingress." + domain, ref, job);
      Onwards(s0, t0, namespace, start, s, t, pc, client.store, client.trace,
              if err then Fail(Deploying(job)) else Finish(Deploying(job)));
    }

    /** The part of Reconcile that writes. */
    method DeployAndPublish(namespace: string, shoot: Shoot, deployer: Deployer, ghost job: Job) returns (err: bool)
      requires deployer.client == client && job.plan == G.PlanOf(deployer.config, deployer.build)
      modifies client
      ensures var start := if job.plan.Failure? then Fail(Deploying(job)) else AtDeploy(job, job.plan.value, shoot);
              Advanced(old(client.store), old(client.trace), namespace, start, client.store, client.trace,
                       if err then Fail(Deploying(job)) else Finish(Deploying(job)))
    {
      ghost var s0, t0 := client.store, client.trace;
      err := deployer.Deploy(namespace, job, shoot);
      if job.plan.Failure? {
        NotYet(s0, t0, namespace, Fail(Deploying(job)));
      }
      if err {
        return;
      }
      ghost var s, t, start := client.store, client.trace, AtDeploy(job, job.plan.value, shoot);
      ghost var next := if shoot.domain.None? then Finish(Deploying(job))
                        else AtExternal(job, shoot.name, shoot.domain.value);
      err := ReconcileDNSRecord(namespace, shoot, deployer, job);
      Onwards(s0, t0, namespace, start, s, t, next, client.store, client.trace,
              if err then Fail(Deploying(job)) else Finish(Deploying(job)));
    }

    method Reconcile(namespace: string, provided: S.ProviderConfig, ghost restoring: bool) returns (err: bool)
      modifies client, this`totals
      ensures var job := Job(G.Plan(G.Input(provided, build)), restoring);
              Advanced(old(client.store), old(client.trace), namespace, Start(Deploying(job)),
                       client.store, client.trace,
                       if err then Fail(Deploying(job)) else Finish(Deploying(job)))
      ensures totals == Counted(old(totals), namespace, ReconcileOp)
      ensures WentUp(old(totals), totals, namespace, {ReconcileOp})
    {
      CountedWentUp(totals, namespace, ReconcileOp);
      totals := Counted(totals, namespace, ReconcileOp);
      ghost var job := Job(G.Plan(G.Input(provided, build)), restoring);
      ghost var s0, t0, start := client.store, client.trace, AtCluster(job);
      NotYet(s0, t0, namespace, start);

      var answer := client.GetCluster(namespace);
      Then(s0, t0, namespace, start, s0, t0, start, client.store, client.trace, answer);
      if !answer.GotShoot? {
        return true;
      }
      var shoot := answer.shoot;
      if shoot.deleting || shoot.hibernated {
        return false;
      }

      var config := S.Merge(provided);
      if config.Failure? {
        return true;
      }
      ghost var s, t, pc := client.store, client.trace, AfterCluster(job, shoot);
      var deployer := new Deployer(client, config.value, build);
      err := DeployAndPublish(namespace, shoot, deployer, job);
      Onwards(s0, t0, namespace, start, s, t, pc, client.store, client.trace,
              if err then Fail(Deploying(job)) else Finish(Deploying(job)));
    }

    /** A restore is a reconciliation, counted as both. */
    method Restore(namespace: string, provided: S.ProviderConfig) returns (err: bool)
      modifies client, this`totals
      ensures var job := Job(G.Plan(G.Input(provided, build)), true);
              Advanced(old(client.store), old(client.trace), namespace, Start(Deploying(job)),
                       client.store, client.trace,
                       if err then Fail(Deploying(job)) else Finish(Deploying(job)))
      ensures totals == Counted(Counted(old(totals), namespace, ReconcileOp), namespace, RestoreOp)
      ensures WentUp(old(totals), totals, namespace, {ReconcileOp, RestoreOp})
    {
      err := Reconcile(namespace, provided, true);
      CountedWentUp(totals, namespace, RestoreOp);
      totals := Counted(totals, namespace, RestoreOp);
    }
  }
}
