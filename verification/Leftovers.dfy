/** What a successful teardown may leave of the DNS side, and exactly when. */
module Leftovers {
  import opened Cluster
  import opened Lifecycle
  import D = DnsTeardown
  import T = Termination

  /** A run of attempts of this teardown alone, up to a success. */
  ghost predicate Succeeds(ns: Namespace, turns: seq<Turn>, kind: Teardown) {
    OnlyTeardowns(turns, {kind}) && Run(Fresh(ns), turns).pc == Idle(Succeeded(TearingDown(kind)))
  }

  /** There is no record, and no manifest resource-manager would still make one of. */
  predicate NoRecordComing(ns: Namespace) {
    ns.record.None? && !(Live(ns.seedMR) && HasManifest(ns.seedMR.value))
  }

  lemma {:induction false} NoRecordComes(c: Config, turns: seq<Turn>, kind: Teardown)
    requires NoRecordComing(c.ns) && TearsDown(c.pc, {kind}) && OnlyTeardowns(turns, {kind})
    ensures NoRecordComing(Run(c, turns).ns)
    decreases |turns|
  {
    if turns != [] {
      assert turns[0] in turns;
      StepTearsDown(c, turns[0], {kind});
      StepBringsNoRecord(c, turns[0], kind);
      NoRecordComes(Step(c, turns[0]), turns[1..], kind);
    }
  }

  lemma StepBringsNoRecord(c: Config, t: Turn, kind: Teardown)
    requires NoRecordComing(c.ns) && TearsDown(c.pc, {kind})
    ensures NoRecordComing(Step(c, t).ns)
  {
  }

  /** Resource-manager makes the record, if it is not there yet, and the shoot can be reached. */
  lemma RecordIsThere(ns: Namespace) returns (before: seq<Turn>, there: Namespace)
    requires !NoRecordComing(ns)
    ensures forall t :: t in before ==> t.Env?
    ensures Run(Fresh(ns), before) == Fresh(there) && there.record.Some? && there.around.reachable
  {
    var seen := Observe(ns.around.(reachable := true));
    var made := if ns.record.Some? then seen else ApplyRecord;
    there := EnvStep(EnvStep(ns, seen), made);
    before := [Env(seen)] + [Env(made)];
    RunStep(Fresh(ns), Env(seen), [Env(made)]);
    RunStep(Fresh(EnvStep(ns, seen)), Env(made), []);
  }

  /** A teardown that the DNS extension is slower than. */
  lemma SuccessBeforeRemoval(ns: Namespace, kind: Teardown) returns (turns: seq<Turn>)
    requires !NoRecordComing(ns)
    ensures Succeeds(ns, turns, kind) && Run(Fresh(ns), turns).ns.record.Some?
  {
    hide NoRecordComing;
    var before, there := RecordIsThere(ns);
    var rest := T.TeardownFinishes(Config(there, AtDnsKeep(kind)), kind);
    RunStep(Fresh(there), Begin(TearingDown(kind)), rest);
    RunAppend(Fresh(ns), before, [Begin(TearingDown(kind))] + rest);
    turns := before + ([Begin(TearingDown(kind))] + rest);
  }

  /**
   Teardowns do not wait for the DNS extension: every run of attempts of a teardown that succeeds leaves no record
   exactly if there was none when it began, and no live manifest to make one of.
   */
  lemma SuccessLeavesNoRecordExactly(ns: Namespace, kind: Teardown)
    ensures (forall turns :: Succeeds(ns, turns, kind) ==> Run(Fresh(ns), turns).ns.record.None?)
            <==> NoRecordComing(ns)
  {
    if NoRecordComing(ns) {
      forall turns | Succeeds(ns, turns, kind) ensures Run(Fresh(ns), turns).ns.record.None? {
        NoRecordComes(Fresh(ns), turns, kind);
      }
    } else {
      var turns := SuccessBeforeRemoval(ns, kind);
      assert Succeeds(ns, turns, kind);
    }
  }

  /**
   ForceDelete does not insist on its DNS part: every run of ForceDeletes that succeeds has cleaned up the DNS side
   exactly if it was clean when the run began. Without failed calls it always has, by
   `Termination.FailureFreeAttempt`.
   */
  lemma ForceDeleteCleansUpExactly(ns: Namespace)
    ensures (forall turns :: Succeeds(ns, turns, ForceDelete) ==> DnsClean(Run(Fresh(ns), turns).ns))
            <==> DnsClean(ns)
  {
    if DnsClean(ns) {
      forall turns | Succeeds(ns, turns, ForceDelete) ensures DnsClean(Run(Fresh(ns), turns).ns) {
        D.CleanStaysClean(Fresh(ns), turns);
      }
    } else {
      D.ForceDeleteMayLeaveRecord(ns);
      var turns := D.ForceDeleteWithDnsError();
      assert Succeeds(ns, turns, ForceDelete) && !DnsClean(Run(Fresh(ns), turns).ns);
    }
  }
}
