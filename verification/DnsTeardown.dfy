/** Removing the DNS record: why the seed resource goes first, and what is certain afterwards. */
module DnsTeardown {
  import opened Wrappers
  import opened Objects
  import opened Cluster
  import opened Lifecycle

  /**
   Confirmed deletion is race-free: whatever ran, failed or crashed before, and however resource-manager and the DNS
   extension interleave, a deletion of the record reaches the webhook only when nothing can revert the confirmation,
   so it is never rejected.
   */
  lemma RecordDeletionIsNeverRejected(ns: Namespace, turns: seq<Turn>, x: Exchange)
    requires x in History(Fresh(ns), turns) && x.pc.AtDnsDrop?
    ensures x.ns.seedMR.None? && (x.ns.record.Some? ==> x.ns.record.value.confirmed)
    ensures Perform(DeleteRecord, x.ns, x.r).1.Failed? <==> x.r != Ok
  {
    HistoryKeepsInv(Fresh(ns), turns, x);
  }

  predicate Deploys(pc: Pc) {
    pc.AtCluster? || pc.AtDeploy? || pc.AtExternal? || pc.AtShootClient? || pc.AtService? || pc.AtSeed?
  }

  /** The DNS part of a teardown has returned without an error. */
  predicate DnsPartSucceeded(pc: Pc) {
    match pc
    case AtKeep(_, errored) => !errored
    case AtDelete(_, errored) => !errored
    case AtWait(_, errored) => !errored
    case Idle(Succeeded(TearingDown(kind))) => kind != ForceDelete
    case _ => false
  }

  lemma {:induction false} CleanStaysClean(c: Config, turns: seq<Turn>)
    requires DnsClean(c.ns) && !Deploys(c.pc) && OnlyTeardowns(turns, {Delete, ForceDelete, Migrate})
    ensures DnsClean(Run(c, turns).ns) && !Deploys(Run(c, turns).pc)
    decreases |turns|
  {
    if turns != [] {
      assert turns[0] in turns;
      CleanStaysClean(Step(c, turns[0]), turns[1..]);
    }
  }

  /** No resurrection: once the DNS part has succeeded, the record is gone or going until a new deployment begins. */
  lemma NoResurrection(ns: Namespace, before: seq<Turn>, after: seq<Turn>)
    requires DnsPartSucceeded(Run(Fresh(ns), before).pc)
    requires OnlyTeardowns(after, {Delete, ForceDelete, Migrate})
    ensures DnsClean(Run(Fresh(ns), before).ns) && DnsClean(Run(Fresh(ns), before + after).ns)
  {
    RunKeepsInv(Fresh(ns), before);
    RunAppend(Fresh(ns), before, after);
    CleanStaysClean(Run(Fresh(ns), before), after);
  }

  // ---- the order the deployer avoids

  /** Resource-manager wants the record gone first, and the webhook refuses as the confirmation is missing. */
  predicate Stuck(ns: Namespace) {
    && Doomed(ns.seedMR) && OwnRecord in ns.seedMR.value.applied
    && ns.record.Some? && !ns.record.value.confirmed && !ns.record.value.terminating
  }

  lemma {:induction false} StuckForever(ns: Namespace, turns: seq<Turn>)
    requires Stuck(ns)
    ensures Stuck(EnvironmentOnly(ns, turns))
    decreases |turns|
  {
    if turns != [] {
      StuckForever(if turns[0].Env? then EnvStep(ns, turns[0].e) else ns, turns[1..]);
    }
  }

  /**
   Annotating first and deleting the seed resource second: one reconciliation in between reverts the annotation, and
   no behaviour of the environment ever lets the wait for the resource succeed.
   */
  lemma AnnotateFirstGetsStuck(ns: Namespace, turns: seq<Turn>)
    requires Live(ns.seedMR) && HasManifest(ns.seedMR.value) && !ns.seedMR.value.keepObjects
    requires ns.record.Some? && !ns.record.value.terminating
    ensures var annotated := Effect(PatchRecord(ns.record.value, Confirmed(ns.record.value)), ns).0;
            var reverted := EnvStep(annotated, ApplyRecord);
            var deleted := Effect(DeleteMR(SeedMR), reverted).0;
            && annotated.record.value.confirmed
            && Effect(PollDeleted(SeedMR), EnvironmentOnly(deleted, turns)).1 == Pending
  {
    var annotated := Effect(PatchRecord(ns.record.value, Confirmed(ns.record.value)), ns).0;
    StuckForever(Effect(DeleteMR(SeedMR), EnvStep(annotated, ApplyRecord)).0, turns);
  }

  lemma KeepAndDeleteShoot(ns: Namespace) returns (marked: Namespace)
    ensures Step(Step(Config(ns, AtKeep(ForceDelete, true)), Answer(Ok)), Answer(Ok)) ==
            Config(marked, AtWait(ForceDelete, true))
    ensures Step(Config(marked, AtWait(ForceDelete, true)), Env(FinalizeShootMR)) ==
            Config(ns.(shootMR := None), AtWait(ForceDelete, true))
  {
    marked := if ns.shootMR.None? then ns
              else ns.(shootMR := Some(ns.shootMR.value.(keepObjects := true, terminating := true)));
  }

  lemma LastWait(ns: Namespace)
    requires ns.shootMR.None?
    ensures Run(Config(ns, AtWait(ForceDelete, true)), Oks(1)) == Config(ns, Idle(Succeeded(TearingDown(ForceDelete))))
  {
    RunStep(Config(ns, AtWait(ForceDelete, true)), Answer(Ok), Oks(0));
  }

  lemma ForceDeleteReleases(ns: Namespace)
    ensures Run(Config(ns, AtKeep(ForceDelete, true)), Oks(2) + ([Env(FinalizeShootMR)] + Oks(1))) ==
            Config(ns.(shootMR := None), Idle(Succeeded(TearingDown(ForceDelete))))
  {
    hide Step;
    var c, finish := Config(ns, AtKeep(ForceDelete, true)), [Env(FinalizeShootMR)] + Oks(1);
    var marked := KeepAndDeleteShoot(ns);
    RunAppend(c, Oks(2), finish);
    RunStep(c, Answer(Ok), Oks(1));
    RunStep(Step(c, Answer(Ok)), Answer(Ok), Oks(0));
    RunStep(Config(marked, AtWait(ForceDelete, true)), Env(FinalizeShootMR), Oks(1));
    LastWait(ns.(shootMR := None));
  }

  /** A force-delete whose first call fails and that meets no further failure. */
  function ForceDeleteWithDnsError(): seq<Turn> {
    [Begin(TearingDown(ForceDelete)), Answer(Err)] + (Oks(2) + ([Env(FinalizeShootMR)] + Oks(1)))
  }

  /**
   ForceDelete carries on after a DNS error: with one failed call it succeeds, releases the shoot resource and leaves
   seed resource and record as they are.
   */
  lemma ForceDeleteMayLeaveRecord(ns: Namespace)
    ensures Run(Fresh(ns), ForceDeleteWithDnsError()) ==
            Config(ns.(shootMR := None), Idle(Succeeded(TearingDown(ForceDelete))))
  {
    RunAppend(Fresh(ns), [Begin(TearingDown(ForceDelete)), Answer(Err)], Oks(2) + ([Env(FinalizeShootMR)] + Oks(1)));
    RunStep(Fresh(ns), Begin(TearingDown(ForceDelete)), [Answer(Err)]);
    RunStep(Config(ns, AtDnsKeep(ForceDelete)), Answer(Err), []);
    ForceDeleteReleases(ns);
  }
}
