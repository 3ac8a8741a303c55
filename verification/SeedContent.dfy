/** What reconciliations publish on the seed, when it is current, and when an outdated record stays published. */
module SeedContent {
  import opened Wrappers
  import opened Objects
  import opened Cluster
  import opened Lifecycle
  import P = Repetition
  import R = Reconciliation
  import T = Termination

  function Manifest(spec: DnsSpec): Content {
    map[OwnRecord := DnsRecordManifest(spec)]
  }

  // ---- convergence on the seed

  /** The spec most recently written to the seed resource. */
  function LastPublished(h: seq<Exchange>): Option<DnsSpec>
    decreases |h|
  {
    if h == [] then None
    else
      var x := h[|h| - 1];
      if x.r != Err && x.pc.AtSeed? then Some(x.pc.spec) else LastPublished(h[..|h| - 1])
  }

  lemma {:induction false} LastPublishedAppend(a: seq<Exchange>, b: seq<Exchange>)
    ensures LastPublished(a + b) == if LastPublished(b).Some? then LastPublished(b) else LastPublished(a)
    decreases |b|
  {
    if b == [] {
      assert a + b == a;
    } else {
      assert (a + b)[..|a + b| - 1] == a + b[..|b| - 1];
      LastPublishedAppend(a, b[..|b| - 1]);
    }
  }

  lemma StepPublishes(c: Config, t: Turn)
    ensures var after := Step(c, t).ns.seedMR;
            after.Some? ==>
              match LastPublished(Exchanged(c, t))
              case Some(spec) => after.value.content == Manifest(spec)
              case None => c.ns.seedMR.Some? && after.value.content == c.ns.seedMR.value.content
  {
    var h := Exchanged(c, t);
    assert h != [] ==> h[..|h| - 1] == [];
  }

  /** In every run, the seed resource contains the spec written last. */
  lemma {:induction false} SeedContentIsLastPublished(c: Config, turns: seq<Turn>)
    ensures var mr := Run(c, turns).ns.seedMR;
            mr.Some? ==>
              match LastPublished(History(c, turns))
              case Some(spec) => mr.value.content == Manifest(spec)
              case None => c.ns.seedMR.Some? && mr.value.content == c.ns.seedMR.value.content
    decreases |turns|
  {
    if turns != [] {
      StepPublishes(c, turns[0]);
      SeedContentIsLastPublished(Step(c, turns[0]), turns[1..]);
      LastPublishedAppend(Exchanged(c, turns[0]), History(Step(c, turns[0]), turns[1..]));
    }
  }

  predicate SeedNotGoing(ns: Namespace) {
    ns.seedMR.None? || Live(ns.seedMR)
  }

  lemma StepKeepsSeed(c: Config, t: Turn)
    requires SeedNotGoing(c.ns) && KindAt(c.pc).None? && (t.Begin? ==> t.op.Deploying?)
    ensures SeedNotGoing(Step(c, t).ns) && KindAt(Step(c, t).pc).None?
    ensures c.ns.seedMR.Some? || LastPublished(Exchanged(c, t)).Some? ==> Step(c, t).ns.seedMR.Some?
  {
    LastOfOneTurn(c, t);
    if c.pc.AtSeed? && t.Answer? {
      WriteCreates(c, t.r);
    }
  }

  lemma LastOfOneTurn(c: Config, t: Turn)
    ensures LastPublished(Exchanged(c, t)).Some? <==> t.Answer? && t.r != Err && c.pc.AtSeed?
  {
    var h := Exchanged(c, t);
    assert h != [] ==> h[..|h| - 1] == [];
  }

  lemma WriteCreates(c: Config, r: Reply)
    requires c.pc.AtSeed?
    ensures c.ns.seedMR.Some? || r != Err ==> Step(c, Answer(r)).ns.seedMR.Some?
  {
  }

  lemma {:induction false} PublishedResourceStays(c: Config, turns: seq<Turn>)
    requires SeedNotGoing(c.ns) && KindAt(c.pc).None? && R.OnlyDeployments(turns)
    ensures c.ns.seedMR.Some? || LastPublished(History(c, turns)).Some? ==> Live(Run(c, turns).ns.seedMR)
    decreases |turns|
  {
    if turns != [] {
      assert turns[0] in turns;
      StepKeepsSeed(c, turns[0]);
      PublishedResourceStays(Step(c, turns[0]), turns[1..]);
      LastPublishedAppend(Exchanged(c, turns[0]), History(Step(c, turns[0]), turns[1..]));
    }
  }

  /**
   Convergence on the seed: after any run of reconciliations and restores over a live resource or none, once
   resource-manager has applied it, the record is the one published last, whatever was published before.
   */
  lemma RecordConvergesToLastPublication(ns: Namespace, turns: seq<Turn>)
    requires SeedNotGoing(ns) && R.OnlyDeployments(turns) && LastPublished(History(Fresh(ns), turns)).Some?
    requires !T.RecordUnsynced(Run(Fresh(ns), turns).ns)
    ensures var record := Run(Fresh(ns), turns).ns.record;
            record.Some? && record.value.spec == LastPublished(History(Fresh(ns), turns)).value
  {
    PublishedResourceStays(Fresh(ns), turns);
    SeedContentIsLastPublished(Fresh(ns), turns);
  }

  // ---- is it current?

  /** A reconciliation in these surroundings gets as far as looking for the address to publish. */
  predicate Publishes(around: Surroundings) {
    && around.shoot.Some? && !around.shoot.value.deleting && !around.shoot.value.hibernated
    && around.shoot.value.domain.Some? && (around.shoot.value.name + "-external") in around.externals
  }

  /** A reconciliation that does not publish can succeed all the same. */
  predicate SucceedsUnpublished(around: Surroundings, job: Job) {
    && !Publishes(around) && around.shoot.Some?
    && (around.shoot.value.deleting || around.shoot.value.hibernated || job.plan.Success?)
  }

  /** Whatever is published is what the surroundings call for. */
  predicate UpToDate(ns: Namespace) {
    ns.seedMR.Some? ==>
      P.Publication(ns.around).Some? && ns.seedMR.value.content == Manifest(P.Publication(ns.around).value)
  }

  /** One reconciliation in surroundings that stay as they are. */
  ghost predicate OneAttempt(turns: seq<Turn>) {
    forall t :: t in turns ==> !t.Begin? && !(t.Env? && t.e.Observe?)
  }

  /** What the reconciliation carries along is what it would read now, and it succeeds only over what is current. */
  predicate Current(c: Config) {
    && (UpToDate(c.ns) || (Publishes(c.ns.around) && (c.pc.Idle? ==> !c.pc.last.Succeeded?)))
    && match c.pc
       case Idle(_) => true
       case AtCluster(_) => true
       case AtDeploy(_, _, shoot) => Some(shoot) == c.ns.around.shoot
       case AtExternal(_, name, domain) =>
         c.ns.around.shoot.Some? && name == c.ns.around.shoot.value.name &&
         Some(domain) == c.ns.around.shoot.value.domain
       case AtShootClient(_, domain, ref) => P.Publishing(c.ns.around, domain, ref)
       case AtService(_, domain, ref) => P.Publishing(c.ns.around, domain, ref)
       case AtSeed(_, spec) => P.Publication(c.ns.around) == Some(spec)
       case _ => false
  }

  lemma EnvKeepsCurrent(c: Config, e: EnvTurn)
    requires Current(c) && !e.Observe?
    ensures Current(Step(c, Env(e)))
  {
  }

  lemma AnswerKeepsCurrent(c: Config, r: Reply)
    requires Current(c)
    ensures Current(Step(c, Answer(r)))
  {
  }

  lemma {:induction false} RunKeepsCurrent(c: Config, turns: seq<Turn>)
    requires Current(c) && OneAttempt(turns)
    ensures Current(Run(c, turns))
    decreases |turns|
  {
    if turns != [] {
      assert turns[0] in turns;
      match turns[0] {
        case Env(e) => EnvKeepsCurrent(c, e);
        case Answer(r) => AnswerKeepsCurrent(c, r);
        case _ =>
      }
      RunKeepsCurrent(Step(c, turns[0]), turns[1..]);
    }
  }

  /** Without a shoot to read or a bundle to write there is no success. */
  predicate Hopeless(c: Config) {
    match c.pc
    case Idle(last) => !last.Succeeded?
    case AtCluster(job) => !Publishes(c.ns.around) && !SucceedsUnpublished(c.ns.around, job)
    case _ => false
  }

  lemma {:induction false} RunStaysHopeless(c: Config, turns: seq<Turn>)
    requires Hopeless(c) && OneAttempt(turns)
    ensures Hopeless(Run(c, turns))
    decreases |turns|
  {
    if turns != [] {
      assert turns[0] in turns;
      RunStaysHopeless(Step(c, turns[0]), turns[1..]);
    }
  }

  /**
   Success after the lookup of the cluster, of the bundle's write, or of the external record, which nobody minds.
   */
  lemma SuccessWithoutPublishing(ns: Namespace, job: Job)
    requires SucceedsUnpublished(ns.around, job)
    ensures var end := Run(Config(ns, AtCluster(job)), Oks(3));
            && end.pc == Idle(Succeeded(Deploying(job)))
            && end.ns.seedMR == ns.seedMR && end.ns.record == ns.record && end.ns.around == ns.around
  {
    var c := Config(ns, AtCluster(job));
    var shoot := ns.around.shoot.value;
    RunStep(c, Answer(Ok), Oks(2));
    if shoot.deleting || shoot.hibernated {
      AnswersEndNothing(Step(c, Answer(Ok)), 2);
    } else {
      SuccessAfterWrite(ns, job, shoot);
    }
  }

  lemma {:induction false} AnswersEndNothing(c: Config, n: nat)
    requires c.pc.Idle?
    ensures Run(c, Oks(n)) == c
  {
    if n > 0 {
      RunStep(c, Answer(Ok), Oks(n - 1));
      AnswersEndNothing(c, n - 1);
    }
  }

  lemma SuccessAfterWrite(ns: Namespace, job: Job, shoot: Shoot)
    requires job.plan.Success? && (shoot.domain.None? || (shoot.name + "-external") !in ns.around.externals)
    ensures var end := Run(Config(ns, AtDeploy(job, job.plan.value, shoot)), Oks(2));
            && end.pc == Idle(Succeeded(Deploying(job)))
            && end.ns.seedMR == ns.seedMR && end.ns.record == ns.record && end.ns.around == ns.around
  {
    var d := Config(ns, AtDeploy(job, job.plan.value, shoot));
    RunStep(d, Answer(Ok), Oks(1));
    RunStep(Step(d, Answer(Ok)), Answer(Ok), Oks(0));
  }

  /**
   What is published after a reconciliation succeeds is current, in every run of it, exactly if the reconciliation
   gets to publish, or cannot succeed without, or what it found was current already. Otherwise, with the shoot's
   domain or external record gone, it succeeds and leaves the outdated record published.
   */
  lemma SuccessLeavesCurrentExactly(ns: Namespace, job: Job)
    ensures (forall turns :: OneAttempt(turns) && Run(Config(ns, AtCluster(job)), turns).pc.Idle? &&
                             Run(Config(ns, AtCluster(job)), turns).pc.last.Succeeded? ==>
                               UpToDate(Run(Config(ns, AtCluster(job)), turns).ns))
            <==> UpToDate(ns) || !SucceedsUnpublished(ns.around, job)
  {
    var c := Config(ns, AtCluster(job));
    if !UpToDate(ns) && SucceedsUnpublished(ns.around, job) {
      SuccessWithoutPublishing(ns, job);
      assert OneAttempt(Oks(3));
    } else {
      forall turns | OneAttempt(turns) && Run(c, turns).pc.Idle? && Run(c, turns).pc.last.Succeeded?
        ensures UpToDate(Run(c, turns).ns)
      {
        if Current(c) {
          RunKeepsCurrent(c, turns);
        } else {
          RunStaysHopeless(c, turns);
        }
      }
    }
  }

  // ---- how long an outdated record stays

  /** What keeps reconciliations from publishing: no domain, or no external record of the shoot of this name. */
  datatype Missing = NoDomain | NoExternal(name: string)

  predicate Lacks(around: Surroundings, missing: Missing) {
    match missing
    case NoDomain => around.shoot.Some? ==> around.shoot.value.domain.None?
    case NoExternal(name) =>
      (around.shoot.Some? ==> around.shoot.value.name == name) && (name + "-external") !in around.externals
  }

  ghost predicate KeepsLacking(turns: seq<Turn>, missing: Missing) {
    forall t :: t in turns && t.Env? && t.e.Observe? ==> Lacks(t.e.around, missing)
  }

  predicate NeverPublishing(c: Config, missing: Missing) {
    && Lacks(c.ns.around, missing)
    && match c.pc
       case Idle(_) => true
       case AtCluster(_) => true
       case AtDeploy(_, _, shoot) => if missing.NoDomain? then shoot.domain.None? else shoot.name == missing.name
       case AtExternal(_, name, _) => missing.NoExternal? && name == missing.name
       case _ => false
  }

  /**
   As long as the domain, or the external record, is missing, no run of reconciliations and restores, successful or
   not, changes what is published: a live manifest stays as it is, and resource-manager keeps applying it.
   */
  lemma {:induction false} OutdatedRecordStaysPublished(c: Config, turns: seq<Turn>, missing: Missing)
    requires NeverPublishing(c, missing) && KeepsLacking(turns, missing) && R.OnlyDeployments(turns)
    requires Live(c.ns.seedMR)
    ensures var mr := Run(c, turns).ns.seedMR; Live(mr) && mr.value.content == c.ns.seedMR.value.content
    decreases |turns|
  {
    if turns != [] {
      assert turns[0] in turns;
      StepNeverPublishes(c, turns[0], missing);
      OutdatedRecordStaysPublished(Step(c, turns[0]), turns[1..], missing);
    }
  }

  lemma StepNeverPublishes(c: Config, t: Turn, missing: Missing)
    requires NeverPublishing(c, missing) && Live(c.ns.seedMR) && (t.Begin? ==> t.op.Deploying?)
    requires t.Env? && t.e.Observe? ==> Lacks(t.e.around, missing)
    ensures NeverPublishing(Step(c, t), missing)
    ensures var mr := Step(c, t).ns.seedMR; Live(mr) && mr.value.content == c.ns.seedMR.value.content
  {
  }
}
