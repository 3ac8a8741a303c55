/** Control-plane migration: one shoot, an old seed that migrates away and a new seed that restores. */
module Handover {
  import opened Wrappers
  import opened Objects
  import opened Cluster
  import opened Lifecycle
  import W = Workload

  /** The two seeds' views of the shoot; the objects in the shoot are one and the same. */
  datatype Duo = Duo(source: Config, target: Config)

  datatype Move = OnOld(turn: Turn) | OnNew(turn: Turn)

  function WithObjects(c: Config, objects: Content): Config {
    c.(ns := c.ns.(objects := objects))
  }

  /** A move on one seed; the other seed sees what it did to the shoot. */
  function Play(d: Duo, m: Move): Duo {
    match m
    case OnOld(t) => var c := Step(d.source, t); Duo(c, WithObjects(d.target, c.ns.objects))
    case OnNew(t) => var c := Step(d.target, t); Duo(WithObjects(d.source, c.ns.objects), c)
  }

  function PlayAll(d: Duo, moves: seq<Move>): Duo
    decreases |moves|
  {
    if moves == [] then d else PlayAll(Play(d, moves[0]), moves[1..])
  }

  lemma {:induction false} PlayAppend(d: Duo, a: seq<Move>, b: seq<Move>)
    ensures PlayAll(d, a + b) == PlayAll(PlayAll(d, a), b)
    decreases |a|
  {
    if a == [] {
      assert a + b == b;
    } else {
      assert (a + b)[0] == a[0] && (a + b)[1..] == a[1..] + b;
      PlayAppend(Play(d, a[0]), a[1..], b);
    }
  }

  /** First phase: only Migrate begins, and only on the old seed. */
  ghost predicate Migrating(moves: seq<Move>) {
    forall m :: m in moves && m.turn.Begin? ==> m.OnOld? && m.turn.op == TearingDown(Migrate)
  }

  /** Second phase: only this Restore begins, and only on the new seed. */
  ghost predicate Restoring(moves: seq<Move>, job: Job) {
    forall m :: m in moves && m.turn.Begin? ==> m.OnNew? && m.turn.op == Deploying(job)
  }

  // ---- first phase

  predicate Leaving(d: Duo) {
    && Inv(d.source) && TearsDown(d.source.pc, {Migrate})
    && d.target.ns.shootMR.None? && d.target.pc.Idle? && d.target.ns.objects == d.source.ns.objects
  }

  lemma PlayLeaves(d: Duo, m: Move)
    requires Leaving(d)
    requires m.turn.Begin? ==> m.OnOld? && m.turn.op == TearingDown(Migrate)
    ensures Leaving(Play(d, m)) && (m.OnNew? ==> Play(d, m).source == d.source)
  {
    match m
    case OnOld(t) =>
      StepKeepsInv(d.source, t);
      StepTearsDown(d.source, t, {Migrate});
    case OnNew(t) =>
      NothingToManage(d.target, t);
  }

  /** Where no operation runs and there is no shoot resource, none appears and the shoot is left alone. */
  lemma NothingToManage(c: Config, t: Turn)
    requires c.pc.Idle? && c.ns.shootMR.None? && !t.Begin?
    ensures var after := Step(c, t);
            after.pc == c.pc && after.ns.shootMR.None? && after.ns.objects == c.ns.objects
  {
  }

  lemma {:induction false} PlayAllLeaves(d: Duo, moves: seq<Move>)
    requires Leaving(d) && Migrating(moves)
    ensures Leaving(PlayAll(d, moves))
    decreases |moves|
  {
    if moves != [] {
      assert moves[0] in moves;
      PlayLeaves(d, moves[0]);
      PlayAllLeaves(Play(d, moves[0]), moves[1..]);
    }
  }

  lemma {:induction false} PlayAllPreserves(d: Duo, moves: seq<Move>, kept: set<ObjKey>)
    requires Leaving(d) && W.Preserves(d.source, kept) && Migrating(moves)
    ensures W.Preserves(PlayAll(d, moves).source, kept)
    decreases |moves|
  {
    if moves != [] {
      assert moves[0] in moves;
      PlayLeaves(d, moves[0]);
      if moves[0].OnOld? {
        W.StepPreserves(d.source, moves[0].turn, kept);
      }
      PlayAllPreserves(Play(d, moves[0]), moves[1..], kept);
    }
  }

  // ---- second phase

  /** Only the planned content is ever written on the new seed, and only its keys become tracked there. */
  predicate Arriving(d: Duo, job: Job, kept: set<ObjKey>) {
    && d.source.ns.shootMR.None? && d.source.pc.Idle? && d.target.ns.objects == d.source.ns.objects
    && kept <= d.target.ns.objects.Keys
    && (d.target.ns.shootMR.Some? ==>
          && Live(d.target.ns.shootMR) && !d.target.ns.shootMR.value.keepObjects
          && job.plan == Success(d.target.ns.shootMR.value.content)
          && d.target.ns.shootMR.value.applied <= d.target.ns.shootMR.value.content.Keys)
    && OnlyThisJob(d.target, job)
  }

  predicate OnlyThisJob(c: Config, job: Job) {
    match c.pc
    case Idle(_) => true
    case AtCluster(j) => j == job
    case AtDeploy(j, content, _) => j == job && job.plan == Success(content)
    case AtExternal(j, _, _) => j == job && c.ns.shootMR.Some?
    case AtShootClient(j, _, _) => j == job && c.ns.shootMR.Some?
    case AtService(j, _, _) => j == job && c.ns.shootMR.Some?
    case AtSeed(j, _) => j == job && c.ns.shootMR.Some?
    case _ => false
  }

  lemma PlayArrives(d: Duo, m: Move, job: Job, kept: set<ObjKey>)
    requires Arriving(d, job, kept)
    requires m.turn.Begin? ==> m.OnNew? && m.turn.op == Deploying(job)
    ensures Arriving(Play(d, m), job, kept)
  {
    match m
    case OnOld(t) => NothingToManage(d.source, t);
    case OnNew(t) =>
  }

  lemma {:induction false} PlayAllArrives(d: Duo, moves: seq<Move>, job: Job, kept: set<ObjKey>)
    requires Arriving(d, job, kept) && Restoring(moves, job)
    ensures Arriving(PlayAll(d, moves), job, kept)
    decreases |moves|
  {
    if moves != [] {
      assert moves[0] in moves;
      PlayArrives(d, moves[0], job, kept);
      PlayAllArrives(Play(d, moves[0]), moves[1..], job, kept);
    }
  }

  /** Where a migration starts from: nothing runs on either seed, and the new one knows nothing of the shoot. */
  predicate BeforeHandover(d: Duo) {
    && d.source.pc == Idle(NeverRan) && d.target.pc == Idle(NeverRan)
    && d.target.ns.shootMR.None? && d.target.ns.objects == d.source.ns.objects
  }

  /**
   Handover: with any failures, crashes and retries, and the environment of both seeds at work, the two shoot
   resources never exist together, and nothing that was there when Migrate succeeded is lost while Restore runs.
   Unless the old seed was already deleting its objects, no object of the workload is missing before that either.
   */
  lemma HandoverIsSeamless(d: Duo, leaving: seq<Move>, arriving: seq<Move>, job: Job)
    requires BeforeHandover(d) && Migrating(leaving)
    ensures var mid := PlayAll(d, leaving);
            && mid.target.ns.shootMR.None?
            && (!Doomed(d.source.ns.shootMR) ==> W.WorkloadOf(d.source.ns) <= mid.target.ns.objects.Keys)
    ensures PlayAll(d, leaving).source.pc == Idle(Succeeded(TearingDown(Migrate))) && Restoring(arriving, job) ==>
              var end := PlayAll(d, leaving + arriving);
              end.source.ns.shootMR.None? && PlayAll(d, leaving).target.ns.objects.Keys <= end.target.ns.objects.Keys
  {
    var mid := PlayAll(d, leaving);
    PlayAllLeaves(d, leaving);
    if !Doomed(d.source.ns.shootMR) {
      PlayAllPreserves(d, leaving, W.WorkloadOf(d.source.ns));
    }
    if mid.source.pc == Idle(Succeeded(TearingDown(Migrate))) && Restoring(arriving, job) {
      PlayAppend(d, leaving, arriving);
      PlayAllArrives(mid, arriving, job, mid.target.ns.objects.Keys);
    }
  }

  // ---- a successful Restore

  predicate Active(around: Surroundings) {
    around.shoot.Some? ==> !around.shoot.value.deleting && !around.shoot.value.hibernated
  }

  /** The new seed's cluster resource never shows the shoot as deleted or hibernated. */
  ghost predicate StaysActive(moves: seq<Move>) {
    forall m :: m in moves && m.OnNew? && m.turn.Env? && m.turn.e.Observe? ==> Active(m.turn.e.around)
  }

  predicate Restored(c: Config, job: Job) {
    && Active(c.ns.around)
    && (c.pc == Idle(Succeeded(Deploying(job))) ==> c.ns.shootMR.Some?)
  }

  lemma PlayRestores(d: Duo, m: Move, job: Job, kept: set<ObjKey>)
    requires Arriving(d, job, kept) && Restored(d.target, job)
    requires m.turn.Begin? ==> m.OnNew? && m.turn.op == Deploying(job)
    requires m.OnNew? && m.turn.Env? && m.turn.e.Observe? ==> Active(m.turn.e.around)
    ensures Restored(Play(d, m).target, job)
  {
    match m
    case OnOld(t) =>
    case OnNew(t) =>
  }

  lemma {:induction false} PlayAllRestores(d: Duo, moves: seq<Move>, job: Job, kept: set<ObjKey>)
    requires Arriving(d, job, kept) && Restored(d.target, job) && Restoring(moves, job) && StaysActive(moves)
    ensures Restored(PlayAll(d, moves).target, job)
    decreases |moves|
  {
    if moves != [] {
      assert moves[0] in moves;
      PlayArrives(d, moves[0], job, kept);
      PlayRestores(d, moves[0], job, kept);
      PlayAllRestores(Play(d, moves[0]), moves[1..], job, kept);
    }
  }

  /**
   For a shoot that is neither deleted nor hibernated, a successful Restore leaves the new resource live and in
   charge.
   */
  lemma RestoreTakesOver(d: Duo, leaving: seq<Move>, arriving: seq<Move>, job: Job)
    requires BeforeHandover(d) && Migrating(leaving) && Restoring(arriving, job)
    requires PlayAll(d, leaving).source.pc == Idle(Succeeded(TearingDown(Migrate)))
    requires Active(d.target.ns.around) && StaysActive(leaving) && StaysActive(arriving)
    requires PlayAll(d, leaving + arriving).target.pc == Idle(Succeeded(Deploying(job)))
    ensures var mr := PlayAll(d, leaving + arriving).target.ns.shootMR;
            Live(mr) && !mr.value.keepObjects && job.plan == Success(mr.value.content)
  {
    PlayAllLeaves(d, leaving);
    StaysIdleAndActive(d, leaving);
    PlayAppend(d, leaving, arriving);
    PlayAllArrives(PlayAll(d, leaving), arriving, job, {});
    PlayAllRestores(PlayAll(d, leaving), arriving, job, {});
  }

  lemma {:induction false} StaysIdleAndActive(d: Duo, moves: seq<Move>)
    requires Leaving(d) && Migrating(moves) && StaysActive(moves) && Active(d.target.ns.around)
    ensures PlayAll(d, moves).target.pc == d.target.pc && Active(PlayAll(d, moves).target.ns.around)
    decreases |moves|
  {
    if moves != [] {
      assert moves[0] in moves;
      PlayLeaves(d, moves[0]);
      StaysIdleAndActive(Play(d, moves[0]), moves[1..]);
    }
  }
}
