/** What happens to the objects in the shoot while the extension is torn down. */
module Workload {
  import opened Wrappers
  import opened Objects
  import opened Cluster
  import opened Lifecycle

  /** Objects of an earlier configuration that resource-manager is about to prune from a live resource. */
  function Stale(ns: Namespace): set<ObjKey> {
    if Live(ns.shootMR) then ns.shootMR.value.applied - ns.shootMR.value.content.Keys else {}
  }

  /** The workload: every object in the shoot that is not already on its way out. */
  function WorkloadOf(ns: Namespace): set<ObjKey> {
    ns.objects.Keys - Stale(ns)
  }

  /** The objects `kept` are present and nobody will remove them. */
  predicate Preserves(c: Config, kept: set<ObjKey>) {
    && Inv(c) && TearsDown(c.pc, {ForceDelete, Migrate}) && !Doomed(c.ns.shootMR)
    && kept <= WorkloadOf(c.ns)
  }

  lemma StepPreserves(c: Config, t: Turn, kept: set<ObjKey>)
    requires Preserves(c, kept)
    requires t.Begin? ==> t.op == TearingDown(ForceDelete) || t.op == TearingDown(Migrate)
    ensures Preserves(Step(c, t), kept)
  {
    StepKeepsInv(c, t);
    StepTearsDown(c, t, {ForceDelete, Migrate});
  }

  lemma {:induction false} RunPreserves(c: Config, turns: seq<Turn>, kept: set<ObjKey>)
    requires Preserves(c, kept) && OnlyTeardowns(turns, {ForceDelete, Migrate})
    ensures Preserves(Run(c, turns), kept)
    decreases |turns|
  {
    if turns != [] {
      assert turns[0] in turns;
      StepPreserves(c, turns[0], kept);
      RunPreserves(Step(c, turns[0]), turns[1..], kept);
    }
  }

  /** A key whose object resource-manager is deleting at this very moment. */
  ghost predicate LosingObjects(ns: Namespace) {
    Doomed(ns.shootMR) && exists k :: k in ns.shootMR.value.applied && k in ns.objects
  }

  predicate Harmless(c: Config, objects: Content) {
    && Inv(c) && TearsDown(c.pc, {ForceDelete, Migrate}) && c.ns.objects == objects
    && (c.ns.shootMR.Some? ==> c.ns.shootMR.value.terminating && c.ns.shootMR.value.applied !! objects.Keys)
  }

  lemma StepHarmless(c: Config, t: Turn, objects: Content)
    requires Harmless(c, objects)
    requires t.Begin? ==> t.op == TearingDown(ForceDelete) || t.op == TearingDown(Migrate)
    ensures Harmless(Step(c, t), objects)
  {
    StepKeepsInv(c, t);
    StepTearsDown(c, t, {ForceDelete, Migrate});
  }

  lemma {:induction false} HarmlessRun(c: Config, turns: seq<Turn>, objects: Content)
    requires Harmless(c, objects) && OnlyTeardowns(turns, {ForceDelete, Migrate})
    ensures Run(c, turns).ns.objects == objects
    decreases |turns|
  {
    if turns != [] {
      assert turns[0] in turns;
      StepHarmless(c, turns[0], objects);
      HarmlessRun(Step(c, turns[0]), turns[1..], objects);
    }
  }

  lemma WorkloadSurvives(ns: Namespace, turns: seq<Turn>)
    requires !LosingObjects(ns) && OnlyTeardowns(turns, {ForceDelete, Migrate})
    ensures WorkloadOf(ns) <= Run(Fresh(ns), turns).ns.objects.Keys
  {
    if Doomed(ns.shootMR) {
      HarmlessRun(Fresh(ns), turns, ns.objects);
    } else {
      RunPreserves(Fresh(ns), turns, WorkloadOf(ns));
    }
  }

  /** A Migrate that has begun but not yet set the flag, and resource-manager removing an object meanwhile. */
  function LossyMigrate(ns: Namespace, removal: EnvTurn): seq<Turn> {
    [Begin(TearingDown(Migrate)), Env(Observe(ns.around.(reachable := true))), Env(removal)]
  }

  lemma MigrateMayLose(ns: Namespace, removal: EnvTurn)
    ensures OnlyTeardowns(LossyMigrate(ns, removal), {ForceDelete, Migrate})
    ensures Run(Fresh(ns), LossyMigrate(ns, removal)) ==
            Config(EnvStep(ns.(around := ns.around.(reachable := true)), removal), AtDnsKeep(Migrate))
  {
    var turns := LossyMigrate(ns, removal);
    var reachable := ns.(around := ns.around.(reachable := true));
    assert turns == [turns[0]] + [turns[1], turns[2]];
    RunStep(Fresh(ns), turns[0], [turns[1], turns[2]]);
    assert [turns[1], turns[2]] == [turns[1]] + [turns[2]];
    RunStep(Config(ns, AtDnsKeep(Migrate)), turns[1], [turns[2]]);
    assert [turns[2]] == [turns[2]] + [];
    RunStep(Config(reachable, AtDnsKeep(Migrate)), turns[2], []);
  }

  /**
   Migration and force-delete preserve the workload in every run, with any failures, crashes and retries, exactly
   unless resource-manager is already deleting managed objects when the first of them starts.
   */
  lemma MigrateAndForceDeletePreserveWorkload(ns: Namespace)
    ensures (forall turns :: OnlyTeardowns(turns, {ForceDelete, Migrate}) ==>
                               WorkloadOf(ns) <= Run(Fresh(ns), turns).ns.objects.Keys)
            <==> !LosingObjects(ns)
  {
    if LosingObjects(ns) {
      var k :| k in ns.shootMR.value.applied && k in ns.objects;
      MigrateMayLose(ns, DeleteObject(k));
      assert k in WorkloadOf(ns) && k !in Run(Fresh(ns), LossyMigrate(ns, DeleteObject(k))).ns.objects;
    } else {
      forall turns | OnlyTeardowns(turns, {ForceDelete, Migrate})
        ensures WorkloadOf(ns) <= Run(Fresh(ns), turns).ns.objects.Keys
      {
        WorkloadSurvives(ns, turns);
      }
    }
  }

  /** They preserve every single object exactly if, besides, no object of an earlier configuration awaits pruning. */
  lemma MigrateAndForceDeletePreserveEveryObject(ns: Namespace)
    ensures (forall turns :: OnlyTeardowns(turns, {ForceDelete, Migrate}) ==>
                               ns.objects.Keys <= Run(Fresh(ns), turns).ns.objects.Keys)
            <==> !LosingObjects(ns) && Stale(ns) !! ns.objects.Keys
  {
    if LosingObjects(ns) {
      MigrateAndForceDeletePreserveWorkload(ns);
      var turns :| OnlyTeardowns(turns, {ForceDelete, Migrate}) &&
                   !(WorkloadOf(ns) <= Run(Fresh(ns), turns).ns.objects.Keys);
      assert !(ns.objects.Keys <= Run(Fresh(ns), turns).ns.objects.Keys);
    } else if k :| k in Stale(ns) && k in ns.objects {
      MigrateMayLose(ns, PruneObject(k));
      assert k in ns.objects.Keys && k !in Run(Fresh(ns), LossyMigrate(ns, PruneObject(k))).ns.objects.Keys;
    } else {
      assert WorkloadOf(ns) == ns.objects.Keys;
      MigrateAndForceDeletePreserveWorkload(ns);
    }
  }

  // ---- Delete

  function Applied(ns: Namespace): set<ObjKey> {
    if ns.shootMR.Some? then ns.shootMR.value.applied else {}
  }

  /** Untracked objects are untouched originals, and nothing foreign has become tracked. */
  predicate Tracking(now: Namespace, start: Namespace)
    requires start.shootMR.Some?
  {
    var mr := start.shootMR.value;
    && (now.shootMR.Some? ==>
          && !now.shootMR.value.keepObjects && now.shootMR.value.content == mr.content
          && (mr.terminating ==> now.shootMR.value.terminating))
    && (forall k :: k in now.objects && k !in Applied(now) ==>
          k in start.objects && k !in mr.applied && now.objects[k] == start.objects[k])
    && (forall k :: k in Applied(now) ==> k in mr.applied || (k in mr.content && !mr.terminating))
    && (forall k :: k in start.objects && k !in mr.applied && (k in mr.content ==> mr.terminating) ==> k in now.objects)
  }

  lemma EnvTracks(now: Namespace, e: EnvTurn, start: Namespace)
    requires start.shootMR.Some? && Tracking(now, start)
    ensures Tracking(EnvStep(now, e), start)
  {
  }

  predicate Removing(c: Config, start: Namespace)
    requires start.shootMR.Some?
  {
    Inv(c) && TearsDown(c.pc, {Delete}) && Tracking(c.ns, start)
  }

  lemma StepRemoves(c: Config, t: Turn, start: Namespace)
    requires start.shootMR.Some? && Removing(c, start)
    requires t.Begin? ==> t.op == TearingDown(Delete)
    ensures Removing(Step(c, t), start)
  {
    StepKeepsInv(c, t);
    StepTearsDown(c, t, {Delete});
    if t.Env? {
      EnvTracks(c.ns, t.e, start);
    } else {
      DeleteLeavesObjectsToOthers(c, t);
    }
  }

  /** The calls of a Delete touch the shoot resource only to mark it, and the shoot not at all. */
  lemma DeleteLeavesObjectsToOthers(c: Config, t: Turn)
    requires Inv(c) && TearsDown(c.pc, {Delete}) && !t.Env?
    ensures var now, after := c.ns, Step(c, t).ns;
            && after.objects == now.objects && (now.shootMR.None? <==> after.shootMR.None?)
            && (now.shootMR.Some? ==>
                  after.shootMR.value == now.shootMR.value.(terminating := after.shootMR.value.terminating))
            && (now.shootMR.Some? && now.shootMR.value.terminating ==> after.shootMR.value.terminating)
  {
  }

  lemma {:induction false} RunRemoves(c: Config, turns: seq<Turn>, start: Namespace)
    requires start.shootMR.Some? && Removing(c, start) && OnlyTeardowns(turns, {Delete})
    ensures Removing(Run(c, turns), start)
    decreases |turns|
  {
    if turns != [] {
      assert turns[0] in turns;
      StepRemoves(c, turns[0], start);
      RunRemoves(Step(c, turns[0]), turns[1..], start);
    }
  }

  /**
   With the flag cleared, however often Delete is retried, its success means that everything resource-manager had
   applied is gone, and objects it never managed are exactly as before.
   */
  lemma DeleteRemovesManagedObjects(ns: Namespace, turns: seq<Turn>)
    requires ns.shootMR.Some? && !ns.shootMR.value.keepObjects && OnlyTeardowns(turns, {Delete})
    requires Run(Fresh(ns), turns).pc == Idle(Succeeded(TearingDown(Delete)))
    ensures var end := Run(Fresh(ns), turns).ns;
            var mr := ns.shootMR.value;
            && end.shootMR.None? && DnsClean(end)
            && end.objects.Keys <= ns.objects.Keys - mr.applied
            && ns.objects.Keys - mr.applied - (if mr.terminating then {} else mr.content.Keys) <= end.objects.Keys
            && (forall k :: k in end.objects ==> end.objects[k] == ns.objects[k])
  {
    RunKeepsInv(Fresh(ns), turns);
    RunRemoves(Fresh(ns), turns, ns);
  }

  predicate KeepingWhileDeleting(c: Config, kept: set<ObjKey>) {
    && Inv(c) && TearsDown(c.pc, {Delete}) && kept <= WorkloadOf(c.ns)
    && (c.ns.shootMR.Some? ==> c.ns.shootMR.value.keepObjects)
  }

  lemma {:induction false} RunKeepsWhileDeleting(c: Config, turns: seq<Turn>, kept: set<ObjKey>)
    requires KeepingWhileDeleting(c, kept) && OnlyTeardowns(turns, {Delete})
    ensures KeepingWhileDeleting(Run(c, turns), kept)
    decreases |turns|
  {
    if turns != [] {
      assert turns[0] in turns;
      StepKeepsInv(c, turns[0]);
      StepTearsDown(c, turns[0], {Delete});
      if !turns[0].Env? {
        DeleteLeavesObjectsToOthers(c, turns[0]);
      }
      assert KeepingWhileDeleting(Step(c, turns[0]), kept);
      RunKeepsWhileDeleting(Step(c, turns[0]), turns[1..], kept);
    }
  }

  /**
   Delete never clears the flag itself: where resource-manager tracks anything of the workload, a successful Delete
   has removed every tracked object exactly if the flag was clear when it started, and otherwise the whole workload
   stays.
   */
  lemma DeleteHonoursTheFlagItFinds(ns: Namespace, turns: seq<Turn>, k: ObjKey)
    requires ns.shootMR.Some? && k in ns.shootMR.value.applied && k in WorkloadOf(ns)
    requires OnlyTeardowns(turns, {Delete})
    requires Run(Fresh(ns), turns).pc == Idle(Succeeded(TearingDown(Delete)))
    ensures ns.shootMR.value.applied !! Run(Fresh(ns), turns).ns.objects.Keys <==> !ns.shootMR.value.keepObjects
    ensures ns.shootMR.value.keepObjects ==> WorkloadOf(ns) <= Run(Fresh(ns), turns).ns.objects.Keys
  {
    if ns.shootMR.value.keepObjects {
      RunKeepsWhileDeleting(Fresh(ns), turns, WorkloadOf(ns));
    } else {
      DeleteRemovesManagedObjects(ns, turns);
    }
  }

  // ---- who set the flag

  /** The last effective write of the shoot resource's flag, if the history has one. */
  function LastFlagWrite(h: seq<Exchange>): Option<bool>
    decreases |h|
  {
    if h == [] then None
    else
      var x := h[|h| - 1];
      if x.r != Err && x.pc.AtDeploy? then Some(false)
      else if x.r != Err && x.pc.AtKeep? && x.ns.shootMR.Some? then Some(true)
      else LastFlagWrite(h[..|h| - 1])
  }

  lemma {:induction false} LastFlagWriteAppend(a: seq<Exchange>, b: seq<Exchange>)
    ensures LastFlagWrite(a + b) == if LastFlagWrite(b).Some? then LastFlagWrite(b) else LastFlagWrite(a)
    decreases |b|
  {
    if b == [] {
      assert a + b == a;
    } else {
      assert (a + b)[..|a + b| - 1] == a + b[..|b| - 1];
      LastFlagWriteAppend(a, b[..|b| - 1]);
    }
  }

  lemma StepTracksFlag(c: Config, t: Turn)
    ensures var after := Step(c, t).ns.shootMR;
            after.Some? ==>
              match LastFlagWrite(Exchanged(c, t))
              case Some(flag) => after.value.keepObjects == flag
              case None => c.ns.shootMR.Some? && after.value.keepObjects == c.ns.shootMR.value.keepObjects
  {
    var h := Exchanged(c, t);
    assert h != [] ==> h[..|h| - 1] == [];
  }

  /** In every run, the flag of an existing shoot resource is what the last effective write of it says. */
  lemma {:induction false} FlagIsTheLastWrite(c: Config, turns: seq<Turn>)
    ensures var mr := Run(c, turns).ns.shootMR;
            mr.Some? ==>
              match LastFlagWrite(History(c, turns))
              case Some(flag) => mr.value.keepObjects == flag
              case None => c.ns.shootMR.Some? && mr.value.keepObjects == c.ns.shootMR.value.keepObjects
    decreases |turns|
  {
    if turns != [] {
      StepTracksFlag(c, turns[0]);
      FlagIsTheLastWrite(Step(c, turns[0]), turns[1..]);
      LastFlagWriteAppend(Exchanged(c, turns[0]), History(Step(c, turns[0]), turns[1..]));
    }
  }

  /**
   From any namespace, a Delete after any run whose last effective flag write was Deploy's removes all that is
   managed.
   */
  lemma DeleteAfterDeployRemovesEverythingManaged(ns: Namespace, before: seq<Turn>, turns: seq<Turn>)
    requires LastFlagWrite(History(Fresh(ns), before)) == Some(false) && Run(Fresh(ns), before).ns.shootMR.Some?
    requires OnlyTeardowns(turns, {Delete})
    requires Run(Fresh(Run(Fresh(ns), before).ns), turns).pc == Idle(Succeeded(TearingDown(Delete)))
    ensures var mid := Run(Fresh(ns), before).ns;
            Run(Fresh(mid), turns).ns.objects.Keys <= mid.objects.Keys - mid.shootMR.value.applied
  {
    FlagIsTheLastWrite(Fresh(ns), before);
    DeleteRemovesManagedObjects(Run(Fresh(ns), before).ns, turns);
  }

  // ---- shoots nothing changes

  /** Resource-manager has nothing left to apply or prune. */
  predicate Settled(ns: Namespace) {
    Live(ns.shootMR) ==>
      && ns.shootMR.value.applied == ns.shootMR.value.content.Keys
      && forall k :: k in ns.shootMR.value.content ==> k in ns.objects && ns.objects[k] == ns.shootMR.value.content[k]
  }

  lemma SettledShootIsLeftAlone(ns: Namespace, e: EnvTurn)
    requires Settled(ns) && !Doomed(ns.shootMR)
    ensures EnvStep(ns, e).objects == ns.objects && Settled(EnvStep(ns, e)) && !Doomed(EnvStep(ns, e).shootMR)
    ensures var after := EnvStep(ns, e).shootMR; after.Some? ==> after == ns.shootMR
  {
    if e.ApplyObject? && Live(ns.shootMR) && e.key in ns.shootMR.value.content {
      assert ns.objects[e.key := ns.shootMR.value.content[e.key]] == ns.objects;
      assert ns.shootMR.value.applied + {e.key} == ns.shootMR.value.applied;
    }
  }

  /** The shoot as it was, with nobody about to change it. */
  predicate Untouched(c: Config, objects: Content, kinds: set<Teardown>) {
    && Inv(c) && TearsDown(c.pc, kinds) && c.ns.objects == objects && Settled(c.ns) && !Doomed(c.ns.shootMR)
    && (Delete in kinds ==> c.ns.shootMR.Some? ==> c.ns.shootMR.value.keepObjects)
  }

  lemma StepUntouched(c: Config, t: Turn, objects: Content, kinds: set<Teardown>)
    requires Untouched(c, objects, kinds)
    requires t.Begin? ==> t.op.TearingDown? && t.op.kind in kinds
    ensures Untouched(Step(c, t), objects, kinds)
  {
    StepKeepsInv(c, t);
    StepTearsDown(c, t, kinds);
    if t.Env? {
      SettledShootIsLeftAlone(c.ns, t.e);
    } else {
      CallsLeaveObjects(c, t, kinds);
    }
  }

  lemma CallsLeaveObjects(c: Config, t: Turn, kinds: set<Teardown>)
    requires TearsDown(c.pc, kinds) && !t.Env?
    ensures var now, after := c.ns, Step(c, t).ns;
            && after.objects == now.objects && (now.shootMR.None? <==> after.shootMR.None?)
            && (now.shootMR.Some? ==>
                  && after.shootMR.value.content == now.shootMR.value.content
                  && after.shootMR.value.applied == now.shootMR.value.applied
                  && (now.shootMR.value.keepObjects ==> after.shootMR.value.keepObjects)
                  && (Live(after.shootMR) ==> Live(now.shootMR))
                  && (Live(now.shootMR) && !Live(after.shootMR) ==> c.pc.AtDelete?))
  {
  }

  lemma {:induction false} RunUntouched(c: Config, turns: seq<Turn>, objects: Content, kinds: set<Teardown>)
    requires Untouched(c, objects, kinds) && OnlyTeardowns(turns, kinds)
    ensures Untouched(Run(c, turns), objects, kinds)
    decreases |turns|
  {
    if turns != [] {
      assert turns[0] in turns;
      StepUntouched(c, turns[0], objects, kinds);
      RunUntouched(Step(c, turns[0]), turns[1..], objects, kinds);
    }
  }
}
