/**
 The extension's operations as programs over the cluster state: one program counter per API call, one turn per step of
 anybody. A run is any sequence of turns, so a statement about all sequences covers every interleaving, failure, crash
 and retry.
 */
module Lifecycle {
  import opened Wrappers
  import opened Objects
  import opened Generator
  import opened Cluster

  datatype Teardown = Delete | ForceDelete | Migrate

  /** A reconciliation, or the same run as part of a restore, with what its input makes the generator yield. */
  datatype Job = Job(plan: Result<Content, PlanError>, restoring: bool)

  datatype Op = Deploying(job: Job) | TearingDown(kind: Teardown)

  datatype Outcome = NeverRan | Succeeded(op: Op) | Errored(op: Op) | Crashed

  /** Where the operation in flight stands: the API call it makes next. */
  datatype Pc =
    | Idle(last: Outcome)
    | AtCluster(job: Job)
    | AtDeploy(job: Job, content: Content, shoot: Shoot)
    | AtExternal(job: Job, shootName: string, domain: string)
    | AtShootClient(job: Job, domain: string, ref: DnsRef)
    | AtService(job: Job, domain: string, ref: DnsRef)
    | AtSeed(job: Job, spec: DnsSpec)
    | AtDnsKeep(kind: Teardown)
    | AtDnsDelete(kind: Teardown)
    | AtDnsWait(kind: Teardown)
    | AtDnsGet(kind: Teardown)
    | AtDnsPatch(kind: Teardown, fetched: Record)
    | AtDnsDrop(kind: Teardown)
    | AtKeep(kind: Teardown, dnsErrored: bool)
    | AtDelete(kind: Teardown, dnsErrored: bool)
    | AtWait(kind: Teardown, dnsErrored: bool)

  datatype Config = Config(ns: Namespace, pc: Pc)

  datatype Turn = Env(e: EnvTurn) | Answer(r: Reply) | Crash | Begin(op: Op)

  /** First non-empty address, IP before hostname, in list order. */
  function LbAddress(ingresses: seq<LbIngress>): string {
    if ingresses == [] then ""
    else if ingresses[0].ip != "" then ingresses[0].ip
    else if ingresses[0].hostname != "" then ingresses[0].hostname
    else LbAddress(ingresses[1..])
  }

  function WildcardName(domain: string): string {
    "*.ingress." + domain
  }

  function Confirmed(r: Record): Record {
    r.(confirmed := true)
  }

  function CallAt(pc: Pc): Call {
    match pc
    case Idle(_) => NoCall
    case AtCluster(_) => GetCluster
    case AtDeploy(_, content, _) => CreateForShoot(content)
    case AtExternal(_, shootName, _) => GetExternalRecord(shootName + "-external")
    case AtShootClient(_, _, _) => NewShootClient
    case AtService(_, _, _) => GetService
    case AtSeed(_, spec) => CreateForSeed(spec)
    case AtDnsKeep(_) => SetKeepObjects(SeedMR)
    case AtDnsDelete(_) => DeleteMR(SeedMR)
    case AtDnsWait(_) => PollDeleted(SeedMR)
    case AtDnsGet(_) => GetRecord
    case AtDnsPatch(_, fetched) => PatchRecord(fetched, Confirmed(fetched))
    case AtDnsDrop(_) => DeleteRecord
    case AtKeep(_, _) => SetKeepObjects(ShootMR)
    case AtDelete(_, _) => DeleteMR(ShootMR)
    case AtWait(_, _) => PollDeleted(ShootMR)
  }

  function Start(op: Op): Pc {
    match op
    case Deploying(job) => AtCluster(job)
    case TearingDown(kind) => AtDnsKeep(kind)
  }

  function Fail(op: Op): Pc { Idle(Errored(op)) }

  function Finish(op: Op): Pc { Idle(Succeeded(op)) }

  /** What follows the DNS part of a teardown; only ForceDelete goes on after an error. */
  function AfterDns(kind: Teardown, errored: bool): Pc {
    match kind
    case Delete => if errored then Fail(TearingDown(Delete)) else AtDelete(Delete, false)
    case ForceDelete => AtKeep(ForceDelete, errored)
    case Migrate => if errored then Fail(TearingDown(Migrate)) else AtKeep(Migrate, false)
  }

  function AfterCluster(job: Job, shoot: Shoot): Pc {
    if shoot.deleting || shoot.hibernated then Finish(Deploying(job))
    else match job.plan
      case Failure(_) => Fail(Deploying(job))
      case Success(content) => AtDeploy(job, content, shoot)
  }

  function AfterService(job: Job, domain: string, ref: DnsRef, lb: seq<LbIngress>): Pc {
    if LbAddress(lb) == "" then Fail(Deploying(job))
    else AtSeed(job, DnsSpec(ref, WildcardName(domain), [LbAddress(lb)]))
  }

  /** How the program goes on after the answer to its call. */
  function Resume(pc: Pc, a: Response): Pc {
    if a.Pending? then pc
    else match pc
      case Idle(_) => pc
      case AtCluster(job) => if a.GotShoot? then AfterCluster(job, a.shoot) else Fail(Deploying(job))
      case AtDeploy(job, _, shoot) =>
        if !a.Done? then Fail(Deploying(job))
        else if shoot.domain.None? then Finish(Deploying(job))
        else AtExternal(job, shoot.name, shoot.domain.value)
      case AtExternal(job, _, domain) =>
        if a.GotRef? then AtShootClient(job, domain, a.ref)
        else if a.NotFound? then Finish(Deploying(job))
        else Fail(Deploying(job))
      case AtShootClient(job, domain, ref) => if a.Done? then AtService(job, domain, ref) else Fail(Deploying(job))
      case AtService(job, domain, ref) =>
        if a.GotService? then AfterService(job, domain, ref, a.loadBalancer) else Fail(Deploying(job))
      case AtSeed(job, _) => if a.Done? then Finish(Deploying(job)) else Fail(Deploying(job))
      case AtDnsKeep(kind) => if a.Done? || a.NotFound? then AtDnsDelete(kind) else AfterDns(kind, true)
      case AtDnsDelete(kind) => if a.Done? then AtDnsWait(kind) else AfterDns(kind, true)
      case AtDnsWait(kind) => if a.Done? then AtDnsGet(kind) else AfterDns(kind, true)
      case AtDnsGet(kind) =>
        if a.GotRecord? then AtDnsPatch(kind, a.record) else AfterDns(kind, !a.NotFound?)
      case AtDnsPatch(kind, _) => if a.Done? then AtDnsDrop(kind) else AfterDns(kind, true)
      case AtDnsDrop(kind) => AfterDns(kind, !a.Done? && !a.NotFound?)
      case AtKeep(kind, e) => if a.Done? || a.NotFound? then AtDelete(kind, e) else Fail(TearingDown(kind))
      case AtDelete(kind, e) => if a.Done? then AtWait(kind, e) else Fail(TearingDown(kind))
      case AtWait(kind, _) => if a.Done? then Finish(TearingDown(kind)) else Fail(TearingDown(kind))
  }

  /** One turn. At most one operation is in flight, and a turn that does not apply changes nothing. */
  function Step(c: Config, t: Turn): Config {
    match t
    case Env(e) => c.(ns := EnvStep(c.ns, e))
    case Answer(r) =>
      if c.pc.Idle? then c
      else
        var (after, a) := Perform(CallAt(c.pc), c.ns, r);
        Config(after, Resume(c.pc, a))
    case Crash => if c.pc.Idle? then c else c.(pc := Idle(Crashed))
    case Begin(op) => if c.pc.Idle? then c.(pc := Start(op)) else c
  }

  function Run(c: Config, turns: seq<Turn>): Config
    decreases |turns|
  {
    if turns == [] then c else Run(Step(c, turns[0]), turns[1..])
  }

  lemma {:induction false} RunAppend(c: Config, a: seq<Turn>, b: seq<Turn>)
    ensures Run(c, a + b) == Run(Run(c, a), b)
    decreases |a|
  {
    if a == [] {
      assert a + b == b;
    } else {
      assert (a + b)[0] == a[0] && (a + b)[1..] == a[1..] + b;
      RunAppend(Step(c, a[0]), a[1..], b);
    }
  }

  lemma RunStep(c: Config, t: Turn, rest: seq<Turn>)
    ensures Run(c, [t] + rest) == Run(Step(c, t), rest)
  {
    assert ([t] + rest)[1..] == rest;
  }

  /** `n` answered calls in a row. */
  function Oks(n: nat): seq<Turn> {
    if n == 0 then [] else [Answer(Ok)] + Oks(n - 1)
  }

  /** What the environment alone makes of a namespace. */
  function EnvironmentOnly(ns: Namespace, turns: seq<Turn>): Namespace
    decreases |turns|
  {
    if turns == [] then ns
    else EnvironmentOnly(if turns[0].Env? then EnvStep(ns, turns[0].e) else ns, turns[1..])
  }

  lemma {:induction false} EnvironmentTurnsOnly(ns: Namespace, pc: Pc, turns: seq<Turn>)
    requires forall t :: t in turns ==> t.Env?
    ensures Run(Config(ns, pc), turns) == Config(EnvironmentOnly(ns, turns), pc)
    decreases |turns|
  {
    if turns != [] {
      assert turns[0] in turns;
      EnvironmentTurnsOnly(EnvStep(ns, turns[0].e), pc, turns[1..]);
    }
  }

  lemma {:induction false} EnvironmentAppend(ns: Namespace, a: seq<Turn>, b: seq<Turn>)
    ensures EnvironmentOnly(ns, a + b) == EnvironmentOnly(EnvironmentOnly(ns, a), b)
    decreases |a|
  {
    if a == [] {
      assert a + b == b;
    } else {
      assert (a + b)[0] == a[0] && (a + b)[1..] == a[1..] + b;
      EnvironmentAppend(if a[0].Env? then EnvStep(ns, a[0].e) else ns, a[1..], b);
    }
  }

  /** A namespace no operation has run in yet, in whatever state it is. */
  function Fresh(ns: Namespace): Config { Config(ns, Idle(NeverRan)) }

  /** The operations that begin are teardowns of the given kinds. */
  ghost predicate OnlyTeardowns(turns: seq<Turn>, kinds: set<Teardown>) {
    forall t :: t in turns && t.Begin? ==> t.op.TearingDown? && t.op.kind in kinds
  }

  /** One API call made during a run: who made it, on what cluster state, and how it went. */
  datatype Exchange = Exchange(pc: Pc, ns: Namespace, r: Reply)

  function Exchanged(c: Config, t: Turn): seq<Exchange> {
    if t.Answer? && !c.pc.Idle? then [Exchange(c.pc, c.ns, t.r)] else []
  }

  /** All API calls of a run, in order. */
  function History(c: Config, turns: seq<Turn>): seq<Exchange>
    decreases |turns|
  {
    if turns == [] then [] else Exchanged(c, turns[0]) + History(Step(c, turns[0]), turns[1..])
  }

  /** The teardown in flight, if any. */
  function KindAt(pc: Pc): Option<Teardown> {
    match pc
    case AtDnsKeep(k) => Some(k)
    case AtDnsDelete(k) => Some(k)
    case AtDnsWait(k) => Some(k)
    case AtDnsGet(k) => Some(k)
    case AtDnsPatch(k, _) => Some(k)
    case AtDnsDrop(k) => Some(k)
    case AtKeep(k, _) => Some(k)
    case AtDelete(k, _) => Some(k)
    case AtWait(k, _) => Some(k)
    case _ => None
  }

  /** Nothing is in flight, or a teardown of one of the given kinds. */
  predicate TearsDown(pc: Pc, kinds: set<Teardown>) {
    pc.Idle? || (KindAt(pc).Some? && KindAt(pc).value in kinds)
  }

  lemma StepTearsDown(c: Config, t: Turn, kinds: set<Teardown>)
    requires TearsDown(c.pc, kinds)
    requires t.Begin? ==> t.op.TearingDown? && t.op.kind in kinds
    ensures TearsDown(Step(c, t).pc, kinds)
  {
  }

  // ---- the invariant of every run

  /** Nothing on the seed can bring the record back, and what is left of it is going away. */
  predicate DnsClean(ns: Namespace) {
    ns.seedMR.None? && (ns.record.None? || ns.record.value.terminating)
  }

  /** What holds of the cluster at each point of a teardown, whatever the environment does meanwhile. */
  predicate Inv(c: Config) {
    var ns := c.ns;
    match c.pc
    case AtDnsDelete(_) => ns.seedMR.None? || ns.seedMR.value.keepObjects
    case AtDnsWait(_) => ns.seedMR.None? || (ns.seedMR.value.keepObjects && ns.seedMR.value.terminating)
    case AtDnsGet(_) => ns.seedMR.None?
    case AtDnsPatch(_, fetched) =>
      ns.seedMR.None? && (ns.record.Some? && fetched.confirmed ==> ns.record.value.confirmed)
    case AtDnsDrop(_) => ns.seedMR.None? && (ns.record.Some? ==> ns.record.value.confirmed)
    case AtKeep(kind, e) => kind != Delete && (e ==> kind == ForceDelete) && (!e ==> DnsClean(ns))
    case AtDelete(kind, e) =>
      && (e ==> kind == ForceDelete) && (!e ==> DnsClean(ns))
      && (kind != Delete ==> ns.shootMR.None? || ns.shootMR.value.keepObjects)
    case AtWait(kind, e) =>
      && (e ==> kind == ForceDelete) && (!e ==> DnsClean(ns))
      && (ns.shootMR.Some? ==> ns.shootMR.value.terminating && (kind != Delete ==> ns.shootMR.value.keepObjects))
    case Idle(Succeeded(TearingDown(kind))) => ns.shootMR.None? && (kind != ForceDelete ==> DnsClean(ns))
    case _ => true
  }

  lemma EnvKeepsInv(c: Config, e: EnvTurn)
    requires Inv(c)
    ensures Inv(c.(ns := EnvStep(c.ns, e)))
  {
  }

  lemma AnswerKeepsInv(c: Config, r: Reply)
    requires Inv(c)
    ensures Inv(Step(c, Answer(r)))
  {
  }

  lemma StepKeepsInv(c: Config, t: Turn)
    requires Inv(c)
    ensures Inv(Step(c, t))
  {
    match t
    case Env(e) => EnvKeepsInv(c, e);
    case Answer(r) => AnswerKeepsInv(c, r);
    case Crash =>
    case Begin(_) =>
  }

  lemma {:induction false} RunKeepsInv(c: Config, turns: seq<Turn>)
    requires Inv(c)
    ensures Inv(Run(c, turns))
    decreases |turns|
  {
    if turns != [] {
      StepKeepsInv(c, turns[0]);
      RunKeepsInv(Step(c, turns[0]), turns[1..]);
    }
  }

  /** Every call of a run is made in a state the invariant describes. */
  lemma {:induction false} HistoryKeepsInv(c: Config, turns: seq<Turn>, x: Exchange)
    requires Inv(c) && x in History(c, turns)
    ensures Inv(Config(x.ns, x.pc))
    decreases |turns|
  {
    if x !in Exchanged(c, turns[0]) {
      StepKeepsInv(c, turns[0]);
      HistoryKeepsInv(Step(c, turns[0]), turns[1..], x);
    }
  }
}
