/** Teardowns finish: a measure that every effective turn lowers, and such a turn as long as there is work left. */
module Termination {
  import opened Wrappers
  import opened Objects
  import opened Cluster
  import opened Lifecycle
  import W = Workload
  import D = DnsTeardown

  /** Turns without failures: calls are answered, resource-manager and the DNS extension do their work. */
  predicate Productive(t: Turn) {
    match t
    case Env(e) => !e.Observe?
    case Answer(r) => r.Ok?
    case _ => false
  }

  /** Keys of the live resource whose object is not tracked or not as the bundle says. */
  function Unsynced(ns: Namespace): set<ObjKey> {
    if !Live(ns.shootMR) then {}
    else
      var mr := ns.shootMR.value;
      set k | k in mr.content && !(k in mr.applied && k in ns.objects && ns.objects[k] == mr.content[k])
  }

  function ShootWork(ns: Namespace): nat {
    if ns.shootMR.None? then 0
    else |ns.shootMR.value.applied| + if Live(ns.shootMR) then 2 * |Unsynced(ns)| + 2 else 1
  }

  /** The live seed resource has not applied its manifest to the record as it is. */
  predicate RecordUnsynced(ns: Namespace) {
    && Live(ns.seedMR) && HasManifest(ns.seedMR.value)
    && !(OwnRecord in ns.seedMR.value.applied && ns.record.Some?
         && ns.record.value.spec == ns.seedMR.value.content[OwnRecord].spec && !ns.record.value.confirmed)
  }

  function SeedWork(ns: Namespace): nat {
    if Live(ns.seedMR) then
      |ns.seedMR.value.applied| + 5 + (if RecordUnsynced(ns) then 2 else 0) +
      (if ns.record.Some? && ns.record.value.terminating then 3 else 0)
    else
      (if ns.seedMR.Some? then |ns.seedMR.value.applied| + 1 else 0) +
      (if ns.record.None? then 0 else if ns.record.value.terminating then 1 else 2)
  }

  function CallsLeft(pc: Pc): nat {
    match pc
    case AtDnsKeep(_) => 9
    case AtDnsDelete(_) => 8
    case AtDnsWait(_) => 7
    case AtDnsGet(_) => 6
    case AtDnsPatch(_, _) => 5
    case AtDnsDrop(_) => 4
    case AtKeep(_, _) => 3
    case AtDelete(_, _) => 2
    case AtWait(_, _) => 1
    case _ => 0
  }

  function Measure(c: Config): nat {
    CallsLeft(c.pc) + ShootWork(c.ns) + SeedWork(c.ns)
  }

  const ALL := {Delete, ForceDelete, Migrate}

  lemma ApplyShrinksUnsynced(ns: Namespace, k: ObjKey)
    requires Live(ns.shootMR) && k in ns.shootMR.value.content && ns.around.reachable
    ensures var after := EnvStep(ns, ApplyObject(k)); Unsynced(after) == Unsynced(ns) - {k}
    ensures k !in Unsynced(ns) ==> EnvStep(ns, ApplyObject(k)) == ns
  {
    var mr := ns.shootMR.value;
    if k !in Unsynced(ns) {
      assert ns.objects[k := mr.content[k]] == ns.objects && mr.applied + {k} == mr.applied;
    }
  }

  lemma PruneKeepsUnsynced(ns: Namespace, k: ObjKey)
    requires Live(ns.shootMR) && k !in ns.shootMR.value.content
    ensures Unsynced(EnvStep(ns, PruneObject(k))) == Unsynced(ns)
  {
  }

  predicate OnShoot(e: EnvTurn) {
    e.ApplyObject? || e.PruneObject? || e.DeleteObject? || e.FinalizeShootMR?
  }

  lemma ShootTurnWorks(ns: Namespace, e: EnvTurn)
    requires OnShoot(e)
    ensures var after := EnvStep(ns, e);
            after.seedMR == ns.seedMR && after.record == ns.record && (after == ns || ShootWork(after) < ShootWork(ns))
  {
    match e
    case ApplyObject(k) =>
      if Live(ns.shootMR) && k in ns.shootMR.value.content && ns.around.reachable {
        ApplyShrinksUnsynced(ns, k);
      }
    case PruneObject(k) =>
      if Live(ns.shootMR) && k !in ns.shootMR.value.content {
        PruneKeepsUnsynced(ns, k);
      }
    case _ =>
  }

  lemma SeedTurnWorks(ns: Namespace, e: EnvTurn)
    requires !OnShoot(e) && !e.Observe?
    ensures var after := EnvStep(ns, e);
            && after.shootMR == ns.shootMR && after.objects == ns.objects
            && (after == ns || SeedWork(after) < SeedWork(ns))
  {
    if e.ApplyRecord? && Live(ns.seedMR) && HasManifest(ns.seedMR.value) && !RecordUnsynced(ns) {
      assert ns.seedMR.value.applied + {OwnRecord} == ns.seedMR.value.applied;
    }
  }

  lemma EnvWorks(ns: Namespace, e: EnvTurn)
    requires !e.Observe?
    ensures var after := EnvStep(ns, e);
            after == ns || ShootWork(after) + SeedWork(after) < ShootWork(ns) + SeedWork(ns)
  {
    if OnShoot(e) {
      ShootTurnWorks(ns, e);
    } else {
      SeedTurnWorks(ns, e);
    }
  }

  lemma TeardownCallsAddNoWork(call: Call, ns: Namespace)
    requires || call.SetKeepObjects? || call.DeleteMR? || call.PollDeleted?
             || call.GetRecord? || call.PatchRecord? || call.DeleteRecord?
    requires call.PatchRecord? || call.DeleteRecord? ==> ns.seedMR.None?
    ensures var after := Effect(call, ns).0; ShootWork(after) + SeedWork(after) <= ShootWork(ns) + SeedWork(ns)
  {
    if call == SetKeepObjects(ShootMR) {
      assert Unsynced(Effect(call, ns).0) == Unsynced(ns);
    }
  }

  lemma ResumeAdvances(pc: Pc, a: Response)
    requires KindAt(pc).Some? && !a.Pending?
    ensures CallsLeft(Resume(pc, a)) < CallsLeft(pc)
  {
  }

  lemma AnswerWorks(c: Config)
    requires Inv(c) && KindAt(c.pc).Some?
    ensures var after := Step(c, Answer(Ok)); after == c || Measure(after) < Measure(c)
  {
    TeardownCallsAddNoWork(CallAt(c.pc), c.ns);
    var (after, a) := Effect(CallAt(c.pc), c.ns);
    if !a.Pending? {
      ResumeAdvances(c.pc, a);
    }
  }

  /** Every effective turn without a failure brings a teardown closer to its end. */
  lemma ProductiveTurnsDecrease(c: Config, t: Turn)
    requires Inv(c) && TearsDown(c.pc, ALL) && Productive(t)
    ensures Step(c, t) == c || Measure(Step(c, t)) < Measure(c)
  {
    match t
    case Env(e) => EnvWorks(c.ns, e);
    case Answer(_) => if !c.pc.Idle? { AnswerWorks(c); }
  }

  ghost predicate AllProductive(turns: seq<Turn>) {
    forall t :: t in turns ==> Productive(t)
  }

  /** How many turns of a schedule change anything. */
  function Effective(c: Config, turns: seq<Turn>): nat
    decreases |turns|
  {
    if turns == [] then 0
    else (if Step(c, turns[0]) == c then 0 else 1) + Effective(Step(c, turns[0]), turns[1..])
  }

  /** However a failure-free schedule is arranged, a teardown takes at most `Measure` effective turns. */
  lemma {:induction false} BoundedWork(c: Config, turns: seq<Turn>)
    requires Inv(c) && TearsDown(c.pc, ALL) && AllProductive(turns)
    ensures Effective(c, turns) + Measure(Run(c, turns)) <= Measure(c)
    decreases |turns|
  {
    if turns != [] {
      assert turns[0] in turns;
      StepKeepsInv(c, turns[0]);
      StepTearsDown(c, turns[0], ALL);
      ProductiveTurnsDecrease(c, turns[0]);
      BoundedWork(Step(c, turns[0]), turns[1..]);
    }
  }

  /** The one way to wait forever: objects must be deleted from a shoot that cannot be reached. */
  predicate Blocked(c: Config) {
    && c.pc.AtWait? && Doomed(c.ns.shootMR) && c.ns.shootMR.value.applied != {} && !c.ns.around.reachable
  }

  /** And it is forever: no failure-free schedule ends the wait, which is that of a Delete. */
  lemma {:induction false} BlockedForever(c: Config, turns: seq<Turn>)
    requires Inv(c) && Blocked(c) && AllProductive(turns)
    ensures Blocked(Run(c, turns)) && Run(c, turns).pc == c.pc && KindAt(c.pc) == Some(Delete)
    decreases |turns|
  {
    if turns != [] {
      assert turns[0] in turns;
      StepKeepsInv(c, turns[0]);
      BlockedForever(Step(c, turns[0]), turns[1..]);
    }
  }

  /** The turn that moves a teardown on. */
  ghost function NextTurn(c: Config): Turn {
    if c.pc.AtDnsWait? && c.ns.seedMR.Some? then Env(FinalizeSeedMR)
    else if c.pc.AtWait? && c.ns.shootMR.Some? then
      if c.ns.shootMR.value.keepObjects || c.ns.shootMR.value.applied == {} then Env(FinalizeShootMR)
      else var k :| k in c.ns.shootMR.value.applied; Env(DeleteObject(k))
    else Answer(Ok)
  }

  /** As long as a teardown is in flight and not blocked, some failure-free turn is effective. */
  lemma ThereIsANextTurn(c: Config)
    requires Inv(c) && KindAt(c.pc).Some? && !Blocked(c)
    ensures Productive(NextTurn(c)) && Step(c, NextTurn(c)) != c
  {
    if c.pc.AtDnsWait? || c.pc.AtWait? {
    } else {
      var (after, a) := Effect(CallAt(c.pc), c.ns);
      assert !a.Pending?;
      ResumeAdvances(c.pc, a);
    }
  }

  predicate OnTrack(c: Config, kind: Teardown) {
    && Inv(c) && (c.pc.AtDnsPatch? ==> c.ns.record.Some?)
    && (KindAt(c.pc) == Some(kind) || c.pc == Idle(Succeeded(TearingDown(kind))))
  }

  /** Nothing has to be deleted from a shoot that cannot be reached. */
  predicate CanFinish(ns: Namespace, kind: Teardown) {
    kind == Delete && ns.shootMR.Some? && !ns.shootMR.value.keepObjects && ns.shootMR.value.applied != {} ==>
      ns.around.reachable
  }

  lemma NextAnswerStaysOnTrack(c: Config, kind: Teardown)
    requires OnTrack(c, kind) && KindAt(c.pc).Some?
    ensures OnTrack(Step(c, Answer(Ok)), kind)
    ensures c.ns.record.Some? ==> Step(c, Answer(Ok)).ns.record.Some?
  {
    AnswerKeepsInv(c, Ok);
  }

  lemma AnswerKeepsCanFinish(c: Config, kind: Teardown)
    requires KindAt(c.pc) == Some(kind) && CanFinish(c.ns, kind)
    ensures CanFinish(Step(c, Answer(Ok)).ns, kind)
  {
  }

  lemma NextTurnStaysOnTrack(c: Config, kind: Teardown)
    requires OnTrack(c, kind) && KindAt(c.pc).Some? && CanFinish(c.ns, kind)
    ensures OnTrack(Step(c, NextTurn(c)), kind) && CanFinish(Step(c, NextTurn(c)).ns, kind)
    ensures c.ns.record.Some? ==> Step(c, NextTurn(c)).ns.record.Some?
  {
    if NextTurn(c).Env? {
      EnvKeepsInv(c, NextTurn(c).e);
    } else {
      hide Effect, Resume;
      NextAnswerStaysOnTrack(c, kind);
      AnswerKeepsCanFinish(c, kind);
    }
  }

  /**
   From wherever a teardown stands there are failure-free turns that complete it, if the shoot can be reached or need
   not be; and the DNS extension need not have removed the record by then.
   */
  lemma TeardownFinishes(c: Config, kind: Teardown) returns (turns: seq<Turn>)
    requires OnTrack(c, kind) && CanFinish(c.ns, kind)
    ensures AllProductive(turns) && Run(c, turns).pc == Idle(Succeeded(TearingDown(kind)))
    ensures c.ns.record.Some? ==> Run(c, turns).ns.record.Some?
    decreases Measure(c)
  {
    if c.pc.Idle? {
      turns := [];
    } else {
      var t := NextTurn(c);
      ThereIsANextTurn(c);
      ProductiveTurnsDecrease(c, t);
      NextTurnStaysOnTrack(c, kind);
      var rest := TeardownFinishes(Step(c, t), kind);
      RunStep(c, t, rest);
      turns := [t] + rest;
    }
  }

  lemma {:induction false} UnreachableObjectsRemain(c: Config, turns: seq<Turn>)
    requires Inv(c) && TearsDown(c.pc, {Delete}) && !CanFinish(c.ns, Delete) && AllProductive(turns)
    ensures Inv(Run(c, turns)) && !CanFinish(Run(c, turns).ns, Delete)
    decreases |turns|
  {
    if turns != [] {
      assert turns[0] in turns;
      StepKeepsInv(c, turns[0]);
      StepTearsDown(c, turns[0], {Delete});
      UnreachableObjectsRemain(Step(c, turns[0]), turns[1..]);
    }
  }

  /** A teardown can be completed without failures exactly if it need not delete from an unreachable shoot. */
  lemma FinishesExactly(c: Config, kind: Teardown)
    requires OnTrack(c, kind)
    ensures (exists turns :: AllProductive(turns) && Run(c, turns).pc == Idle(Succeeded(TearingDown(kind))))
            <==> CanFinish(c.ns, kind)
  {
    if CanFinish(c.ns, kind) {
      var turns := TeardownFinishes(c, kind);
      assert AllProductive(turns);
    } else {
      forall turns | AllProductive(turns) ensures Run(c, turns).pc != Idle(Succeeded(TearingDown(kind))) {
        UnreachableObjectsRemain(c, turns);
      }
    }
  }

  // ---- every fair schedule finishes

  /**
   A round in which everybody gets a turn: the call, both finalizations, and the deletion of every tracked object.
   */
  ghost predicate Serves(round: seq<Turn>, ns: Namespace) {
    && AllProductive(round)
    && Answer(Ok) in round && Env(FinalizeSeedMR) in round && Env(FinalizeShootMR) in round
    && forall k :: k in W.Applied(ns) ==> Env(DeleteObject(k)) in round
  }

  function RunRounds(c: Config, rounds: seq<seq<Turn>>): Config
    decreases |rounds|
  {
    if rounds == [] then c else RunRounds(Run(c, rounds[0]), rounds[1..])
  }

  ghost predicate Fair(c: Config, rounds: seq<seq<Turn>>)
    decreases |rounds|
  {
    rounds == [] || (Serves(rounds[0], c.ns) && Fair(Run(c, rounds[0]), rounds[1..]))
  }

  lemma {:induction false} EffectiveTurnCounts(c: Config, turns: seq<Turn>, t: Turn)
    requires t in turns && Step(c, t) != c
    ensures Effective(c, turns) > 0
    decreases |turns|
  {
    if Step(c, turns[0]) == c {
      EffectiveTurnCounts(c, turns[1..], t);
    }
  }

  /** A round in which a teardown is in flight and not blocked brings it closer to its end. */
  lemma RoundWorks(c: Config, round: seq<Turn>)
    requires Inv(c) && TearsDown(c.pc, ALL) && !c.pc.Idle? && !Blocked(c) && Serves(round, c.ns)
    ensures Measure(Run(c, round)) < Measure(c)
  {
    ThereIsANextTurn(c);
    EffectiveTurnCounts(c, round, NextTurn(c));
    BoundedWork(c, round);
  }

  lemma {:induction false} RunTearsDown(c: Config, turns: seq<Turn>)
    requires TearsDown(c.pc, ALL) && AllProductive(turns)
    ensures TearsDown(Run(c, turns).pc, ALL) && (c.pc.Idle? ==> Run(c, turns).pc == c.pc)
    decreases |turns|
  {
    if turns != [] {
      assert turns[0] in turns;
      StepTearsDown(c, turns[0], ALL);
      RunTearsDown(Step(c, turns[0]), turns[1..]);
    }
  }

  /** However the turns of each round are arranged, after `Measure` rounds the attempt has ended or waits forever. */
  lemma {:induction false} FairSchedulesFinish(c: Config, rounds: seq<seq<Turn>>)
    requires Inv(c) && TearsDown(c.pc, ALL) && Fair(c, rounds)
    requires |rounds| >= Measure(c) || c.pc.Idle? || Blocked(c)
    ensures RunRounds(c, rounds).pc.Idle? || Blocked(RunRounds(c, rounds))
    decreases |rounds|
  {
    if rounds != [] {
      RunKeepsInv(c, rounds[0]);
      RunTearsDown(c, rounds[0]);
      if Blocked(c) {
        BlockedForever(c, rounds[0]);
      } else if !c.pc.Idle? {
        RoundWorks(c, rounds[0]);
      }
      FairSchedulesFinish(Run(c, rounds[0]), rounds[1..]);
    }
  }

  // ---- how failure-free attempts end

  /**
   Without failures, an attempt ends in success or at a record that vanished between the read and the annotation, and
   past its DNS part the record is gone or going, for ForceDelete too.
   */
  predicate Attempting(c: Config, kind: Teardown) {
    && Inv(c)
    && (c.pc.AtKeep? || c.pc.AtDelete? || c.pc.AtWait? || c.pc.Idle? ==> DnsClean(c.ns))
    && (KindAt(c.pc) == Some(kind) || c.pc == Idle(Succeeded(TearingDown(kind))) ||
        (kind != ForceDelete && c.pc == Idle(Errored(TearingDown(kind))) && c.ns.seedMR.None? && c.ns.record.None?))
  }

  lemma StepAttempts(c: Config, t: Turn, kind: Teardown)
    requires Attempting(c, kind) && Productive(t)
    ensures Attempting(Step(c, t), kind)
  {
    StepKeepsInv(c, t);
  }

  lemma {:induction false} FailureFreeAttempt(c: Config, turns: seq<Turn>, kind: Teardown)
    requires Attempting(c, kind) && AllProductive(turns)
    ensures Attempting(Run(c, turns), kind)
    ensures Run(c, turns).pc.Idle? ==> DnsClean(Run(c, turns).ns)
    decreases |turns|
  {
    if turns != [] {
      assert turns[0] in turns;
      StepAttempts(c, turns[0], kind);
      FailureFreeAttempt(Step(c, turns[0]), turns[1..], kind);
    }
  }

  /** The record is there and may be gone by the time it is annotated. */
  predicate Vanishing(ns: Namespace) {
    && ns.record.Some?
    && (|| ns.record.value.terminating
        || (ns.record.value.confirmed && Doomed(ns.seedMR) && OwnRecord in ns.seedMR.value.applied))
  }

  /** The record, if there is one, stays until the attempt itself deletes it. */
  predicate Staying(c: Config) {
    && Inv(c)
    && match c.pc
       case AtDnsKeep(_) => !Vanishing(c.ns)
       case AtDnsDelete(_) => c.ns.record.Some? ==> !c.ns.record.value.terminating
       case AtDnsWait(_) => c.ns.record.Some? ==> !c.ns.record.value.terminating
       case AtDnsGet(_) => c.ns.record.Some? ==> !c.ns.record.value.terminating
       case AtDnsPatch(_, _) => c.ns.record.Some? && !c.ns.record.value.terminating
       case Idle(last) => !last.Errored?
       case _ => KindAt(c.pc).Some?
  }

  lemma StepStays(c: Config, t: Turn)
    requires Staying(c) && Productive(t)
    ensures Staying(Step(c, t))
  {
    StepKeepsInv(c, t);
  }

  lemma {:induction false} RunStays(c: Config, turns: seq<Turn>)
    requires Staying(c) && AllProductive(turns)
    ensures Staying(Run(c, turns))
    decreases |turns|
  {
    if turns != [] {
      assert turns[0] in turns;
      StepStays(c, turns[0]);
      RunStays(Step(c, turns[0]), turns[1..]);
    }
  }

  lemma KeepAndDeleteSeed(ns: Namespace, kind: Teardown) returns (marked: Namespace)
    ensures Step(Step(Config(ns, AtDnsKeep(kind)), Answer(Ok)), Answer(Ok)) == Config(marked, AtDnsWait(kind))
    ensures EnvStep(marked, FinalizeSeedMR) == ns.(seedMR := None)
  {
    marked := if ns.seedMR.None? then ns
              else ns.(seedMR := Some(ns.seedMR.value.(keepObjects := true, terminating := true)));
  }

  /** The seed resource is released over a record on its way out, which the DNS extension has not removed yet. */
  lemma ReleaseKeepsRecord(ns: Namespace, kind: Teardown)
    ensures var turns := Oks(2) + [Env(FinalizeSeedMR)];
            && AllProductive(turns)
            && Run(Config(ns, AtDnsKeep(kind)), turns) == Config(ns.(seedMR := None), AtDnsWait(kind))
  {
    hide EnvStep, Effect, Resume;
    var c := Config(ns, AtDnsKeep(kind));
    var marked := KeepAndDeleteSeed(ns, kind);
    RunAppend(c, Oks(2), [Env(FinalizeSeedMR)]);
    RunStep(c, Answer(Ok), Oks(1));
    RunStep(Step(c, Answer(Ok)), Answer(Ok), Oks(0));
    RunStep(Config(marked, AtDnsWait(kind)), Env(FinalizeSeedMR), []);
  }

  lemma ReadVanishAnnotate(ns: Namespace, kind: Teardown)
    requires ns.seedMR.None? && ns.record.Some? && ns.record.value.terminating && kind != ForceDelete
    ensures var read := Config(ns, AtDnsPatch(kind, ns.record.value));
            && Step(Step(Config(ns, AtDnsWait(kind)), Answer(Ok)), Answer(Ok)) == read
            && Step(Step(read, Env(RemoveRecord)), Answer(Ok)) ==
               Config(ns.(record := None), Idle(Errored(TearingDown(kind))))
  {
  }

  lemma VanishesAfterRead(ns: Namespace, kind: Teardown)
    requires ns.seedMR.None? && ns.record.Some? && ns.record.value.terminating && kind != ForceDelete
    ensures var turns := Oks(2) + ([Env(RemoveRecord)] + Oks(1));
            && AllProductive(turns)
            && Run(Config(ns, AtDnsWait(kind)), turns) == Config(ns.(record := None), Idle(Errored(TearingDown(kind))))
  {
    hide EnvStep, Effect, Resume;
    var c, read := Config(ns, AtDnsWait(kind)), Config(ns, AtDnsPatch(kind, ns.record.value));
    ReadVanishAnnotate(ns, kind);
    RunAppend(c, Oks(2), [Env(RemoveRecord)] + Oks(1));
    RunStep(c, Answer(Ok), Oks(1));
    RunStep(Step(c, Answer(Ok)), Answer(Ok), Oks(0));
    RunStep(read, Env(RemoveRecord), Oks(1));
    RunStep(Step(read, Env(RemoveRecord)), Answer(Ok), Oks(0));
  }

  /** A failure-free schedule whose annotation comes too late. */
  lemma VanishingFails(ns: Namespace, kind: Teardown) returns (turns: seq<Turn>)
    requires ns.record.Some? && ns.record.value.terminating && kind != ForceDelete
    ensures AllProductive(turns) && Run(Config(ns, AtDnsKeep(kind)), turns).pc == Idle(Errored(TearingDown(kind)))
  {
    var release, late := Oks(2) + [Env(FinalizeSeedMR)], Oks(2) + ([Env(RemoveRecord)] + Oks(1));
    ReleaseKeepsRecord(ns, kind);
    VanishesAfterRead(ns.(seedMR := None), kind);
    RunAppend(Config(ns, AtDnsKeep(kind)), release, late);
    turns := release + late;
  }

  /**
   An attempt without any failed call can still end in an error: the annotation of a vanished record is not forgiven,
   although its absence is what is wanted. It can happen exactly if the record exists when the attempt begins and is
   already terminating, or confirmed under a seed resource that is deleting it; and never to a ForceDelete.
   */
  lemma FailureFreeAttemptErrsExactly(ns: Namespace, kind: Teardown)
    ensures (exists turns :: AllProductive(turns) &&
                             Run(Config(ns, AtDnsKeep(kind)), turns).pc == Idle(Errored(TearingDown(kind))))
            <==> kind != ForceDelete && Vanishing(ns)
  {
    var c := Config(ns, AtDnsKeep(kind));
    if kind == ForceDelete {
      forall turns | AllProductive(turns) ensures Run(c, turns).pc != Idle(Errored(TearingDown(kind))) {
        FailureFreeAttempt(c, turns, kind);
      }
    } else if Vanishing(ns) {
      var release := Env(DeleteSeedObject(OwnRecord));
      if ns.record.value.terminating {
        var turns := VanishingFails(ns, kind);
        assert AllProductive(turns);
      } else {
        var rest := VanishingFails(EnvStep(ns, release.e), kind);
        RunStep(c, release, rest);
        assert AllProductive([release] + rest);
      }
    } else {
      forall turns | AllProductive(turns) ensures Run(c, turns).pc != Idle(Errored(TearingDown(kind))) {
        RunStays(c, turns);
      }
    }
  }

  /** The attempt after such an end meets no record and does not fail. */
  predicate Retrying(c: Config, kind: Teardown) {
    && Inv(c) && c.ns.seedMR.None? && c.ns.record.None? && !c.pc.AtDnsPatch? && !c.pc.AtDnsDrop?
    && (KindAt(c.pc) == Some(kind) || c.pc == Idle(Succeeded(TearingDown(kind))))
  }

  lemma StepRetries(c: Config, t: Turn, kind: Teardown)
    requires Retrying(c, kind) && Productive(t)
    ensures Retrying(Step(c, t), kind)
  {
    StepKeepsInv(c, t);
  }

  lemma {:induction false} RetrySucceeds(c: Config, turns: seq<Turn>, kind: Teardown)
    requires Retrying(c, kind) && AllProductive(turns)
    ensures Run(c, turns).pc.Idle? ==> Run(c, turns).pc == Idle(Succeeded(TearingDown(kind)))
    decreases |turns|
  {
    if turns != [] {
      assert turns[0] in turns;
      StepRetries(c, turns[0], kind);
      RetrySucceeds(Step(c, turns[0]), turns[1..], kind);
    }
  }

  /**
   A seed resource stuck on an unconfirmed record stays stuck whatever the environment does before the first call of a
   teardown. That call rewrites the flag, after which resource-manager's next turn releases the resource, and the
   teardown can be completed.
   */
  lemma StuckSeedIsUnblocked(ns: Namespace, kind: Teardown, waiting: seq<Turn>) returns (turns: seq<Turn>)
    requires D.Stuck(ns) && forall t :: t in waiting ==> t.Env?
    ensures var waited := Run(Config(ns, AtDnsKeep(kind)), waiting);
            && D.Stuck(waited.ns) && waited.pc == AtDnsKeep(kind)
            && var released := Run(waited, [Answer(Ok), Env(FinalizeSeedMR)]);
            && released.ns == waited.ns.(seedMR := None)
            && (CanFinish(waited.ns, kind) ==>
                  && AllProductive(turns) && Run(released, turns).pc == Idle(Succeeded(TearingDown(kind)))
                  && DnsClean(Run(released, turns).ns))
  {
    EnvironmentTurnsOnly(ns, AtDnsKeep(kind), waiting);
    D.StuckForever(ns, waiting);
    var waited := Run(Config(ns, AtDnsKeep(kind)), waiting);
    var released := Config(waited.ns.(seedMR := None), AtDnsDelete(kind));
    KeepReleasesStuckSeed(waited.ns, kind);
    turns := [];
    if CanFinish(waited.ns, kind) {
      turns := TeardownFinishes(released, kind);
      FailureFreeAttempt(released, turns, kind);
    }
  }

  lemma KeepReleasesStuckSeed(ns: Namespace, kind: Teardown)
    requires D.Stuck(ns)
    ensures Run(Config(ns, AtDnsKeep(kind)), [Answer(Ok), Env(FinalizeSeedMR)]) ==
            Config(ns.(seedMR := None), AtDnsDelete(kind))
  {
    var c := Config(ns, AtDnsKeep(kind));
    RunStep(c, Answer(Ok), [Env(FinalizeSeedMR)]);
    RunStep(Step(c, Answer(Ok)), Env(FinalizeSeedMR), []);
  }
}
