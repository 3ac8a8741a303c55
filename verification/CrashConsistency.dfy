/** What failed and crashed attempts of a teardown leave behind, an uninterrupted teardown could have left as well. */
module CrashConsistency {
  import opened Wrappers
  import opened Objects
  import opened Cluster
  import opened Lifecycle
  import T = Termination
  import W = Workload

  /** One attempt without failed calls, lost replies or crashes, beside an environment that does as it likes. */
  ghost predicate Uninterrupted(turns: seq<Turn>) {
    forall t :: t in turns ==> t.Env? || t == Answer(Ok)
  }

  /** The same shoot resource over the same shoot. */
  predicate SameShoot(a: Namespace, b: Namespace) {
    a.shootMR == b.shootMR && a.objects == b.objects && a.around == b.around
  }

  // ---- the DNS part leaves the shoot alone

  predicate InDnsPart(pc: Pc) {
    KindAt(pc).Some? && !pc.AtKeep? && !pc.AtDelete? && !pc.AtWait?
  }

  lemma DnsAnswer(c: Config, kind: Teardown)
    requires T.OnTrack(c, kind) && InDnsPart(c.pc) && !(c.pc.AtDnsWait? && c.ns.seedMR.Some?)
    ensures var next := Step(c, Answer(Ok));
            && Inv(next) && SameShoot(next.ns, c.ns)
            && ((T.OnTrack(next, kind) && InDnsPart(next.pc)) || next.pc == AfterDns(kind, false))
  {
    AnswerKeepsInv(c, Ok);
  }

  lemma DnsTurn(c: Config, kind: Teardown)
    requires T.OnTrack(c, kind) && InDnsPart(c.pc)
    ensures var next := Step(c, T.NextTurn(c));
            && Inv(next) && SameShoot(next.ns, c.ns)
            && ((T.OnTrack(next, kind) && InDnsPart(next.pc)) || next.pc == AfterDns(kind, false))
  {
    if c.pc.AtDnsWait? && c.ns.seedMR.Some? {
      EnvKeepsInv(c, FinalizeSeedMR);
    } else {
      hide Effect, Resume;
      DnsAnswer(c, kind);
    }
  }

  lemma DnsPartCompletes(c: Config, kind: Teardown) returns (turns: seq<Turn>)
    requires T.OnTrack(c, kind) && InDnsPart(c.pc)
    ensures T.AllProductive(turns) && Uninterrupted(turns)
    ensures var end := Run(c, turns); Inv(end) && end.pc == AfterDns(kind, false) && SameShoot(end.ns, c.ns)
    decreases T.Measure(c)
  {
    var t := T.NextTurn(c);
    T.ThereIsANextTurn(c);
    T.ProductiveTurnsDecrease(c, t);
    DnsTurn(c, kind);
    var rest: seq<Turn> := [];
    if InDnsPart(Step(c, t).pc) {
      rest := DnsPartCompletes(Step(c, t), kind);
    }
    RunStep(c, t, rest);
    turns := [t] + rest;
  }

  // ---- the uninterrupted attempt that shadows a run

  /** An attempt beyond its DNS part that has made exactly the calls that have taken effect on the shoot resource. */
  predicate Shadows(s: Config, c: Config, kind: Teardown) {
    && Inv(c) && Inv(s) && TearsDown(c.pc, {kind}) && SameShoot(s.ns, c.ns)
    && (s.pc == AtKeep(kind, false) || s.pc == AtDelete(kind, false) || s.pc == AtWait(kind, false))
    && (c.pc.AtDelete? && kind != Delete ==> !s.pc.AtKeep?)
    && (c.pc.AtWait? || c.pc == Idle(Succeeded(TearingDown(kind))) ==> s.pc.AtWait?)
  }

  /** The shadow sees the same environment, and makes a call when the run first makes it with effect. */
  function Shadowing(s: Config, c: Config, t: Turn): seq<Turn> {
    match t
    case Env(_) => [t]
    case Answer(r) =>
      if r != Err && ((c.pc.AtKeep? && s.pc.AtKeep?) || (c.pc.AtDelete? && s.pc.AtDelete?)) then [Answer(Ok)] else []
    case _ => []
  }

  lemma EnvActsAlike(s: Namespace, c: Namespace, e: EnvTurn)
    requires SameShoot(s, c)
    ensures SameShoot(EnvStep(s, e), EnvStep(c, e))
  {
  }

  function Flagged(mr: Option<ManagedResource>): Option<ManagedResource> {
    if mr.Some? then Some(mr.value.(keepObjects := true)) else None
  }

  function Marked(mr: Option<ManagedResource>): Option<ManagedResource> {
    if mr.Some? then Some(mr.value.(terminating := true)) else None
  }

  lemma AnswerAtKeep(c: Config, r: Reply)
    requires c.pc.AtKeep?
    ensures var next := Step(c, Answer(r));
            && next.ns == (if r == Err then c.ns else c.ns.(shootMR := Flagged(c.ns.shootMR)))
            && next.pc == if r == Ok then AtDelete(c.pc.kind, c.pc.dnsErrored) else Fail(TearingDown(c.pc.kind))
  {
  }

  lemma AnswerAtDelete(c: Config, r: Reply)
    requires c.pc.AtDelete?
    ensures var next := Step(c, Answer(r));
            && next.ns == (if r == Err then c.ns else c.ns.(shootMR := Marked(c.ns.shootMR)))
            && next.pc == if r == Ok then AtWait(c.pc.kind, c.pc.dnsErrored) else Fail(TearingDown(c.pc.kind))
  {
  }

  lemma AnswerElsewhere(c: Config, r: Reply, kind: Teardown)
    requires TearsDown(c.pc, {kind}) && !c.pc.AtKeep? && !c.pc.AtDelete?
    ensures var next := Step(c, Answer(r));
            && SameShoot(next.ns, c.ns) && (next.pc.AtDelete? ==> kind == Delete)
            && (next.pc.AtWait? || next.pc == Idle(Succeeded(TearingDown(kind))) ==> c.pc.AtWait? || next.pc == c.pc)
  {
  }

  lemma LastWait(s: Config, kind: Teardown)
    requires s.pc == AtWait(kind, false) && s.ns.shootMR.None?
    ensures Run(s, [Answer(Ok)]) == s.(pc := Idle(Succeeded(TearingDown(kind))))
  {
    RunStep(s, Answer(Ok), []);
  }

  /** A call that has no effect on the shoot resource, or none any more, leaves the shadow where it is. */
  lemma UnseenAnswer(s: Config, c: Config, r: Reply, kind: Teardown)
    requires Shadows(s, c, kind) && Shadowing(s, c, Answer(r)) == []
    ensures Shadows(s, Step(c, Answer(r)), kind)
  {
    hide Step;
    AnswerKeepsInv(c, r);
    StepTearsDown(c, Answer(r), {kind});
    if c.pc.AtKeep? {
      AnswerAtKeep(c, r);
    } else if c.pc.AtDelete? {
      AnswerAtDelete(c, r);
    } else {
      AnswerElsewhere(c, r, kind);
    }
  }

  /** The first call with an effect. */
  lemma SeenAnswer(s: Config, c: Config, r: Reply, kind: Teardown)
    requires Shadows(s, c, kind) && Shadowing(s, c, Answer(r)) != []
    ensures Shadows(Step(s, Answer(Ok)), Step(c, Answer(r)), kind)
  {
    hide Step;
    AnswerKeepsInv(c, r);
    AnswerKeepsInv(s, Ok);
    StepTearsDown(c, Answer(r), {kind});
    if c.pc.AtKeep? {
      AnswerAtKeep(c, r);
      AnswerAtKeep(s, Ok);
    } else {
      AnswerAtDelete(c, r);
      AnswerAtDelete(s, Ok);
    }
  }

  lemma StepShadows(s: Config, c: Config, t: Turn, kind: Teardown)
    requires Shadows(s, c, kind) && (t.Begin? ==> t.op == TearingDown(kind))
    ensures Shadows(Run(s, Shadowing(s, c, t)), Step(c, t), kind)
  {
    match t
    case Env(e) =>
      RunStep(s, t, []);
      EnvKeepsInv(c, e);
      EnvKeepsInv(s, e);
      EnvActsAlike(s.ns, c.ns, e);
    case Answer(r) =>
      hide Effect, Resume;
      if Shadowing(s, c, t) == [] {
        UnseenAnswer(s, c, r, kind);
      } else {
        SeenAnswer(s, c, r, kind);
        RunStep(s, Answer(Ok), []);
      }
    case _ =>
  }

  lemma {:induction false} RunShadows(s: Config, c: Config, turns: seq<Turn>, kind: Teardown) returns (clean: seq<Turn>)
    requires Shadows(s, c, kind) && OnlyTeardowns(turns, {kind})
    ensures Uninterrupted(clean) && Shadows(Run(s, clean), Run(c, turns), kind)
    decreases |turns|
  {
    if turns == [] {
      clean := [];
    } else {
      assert turns[0] in turns;
      var now := Shadowing(s, c, turns[0]);
      StepShadows(s, c, turns[0], kind);
      var later := RunShadows(Run(s, now), Step(c, turns[0]), turns[1..], kind);
      RunAppend(s, now, later);
      clean := now + later;
    }
  }

  /**
   Crash consistency: whatever attempts failed, crashed or lost a reply before, the first success of a teardown leaves
   a shoot and a shoot resource that one uninterrupted attempt leaves in some environment, from every state to start
   in.
   */
  lemma TeardownIsCrashConsistent(kind: Teardown, ns: Namespace, turns: seq<Turn>) returns (clean: seq<Turn>)
    requires OnlyTeardowns(turns, {kind})
    requires Run(Fresh(ns), turns).pc == Idle(Succeeded(TearingDown(kind)))
    ensures Uninterrupted(clean)
    ensures var end, straight := Run(Fresh(ns), turns), Run(Config(ns, AtDnsKeep(kind)), clean);
            && straight.pc == end.pc && SameShoot(straight.ns, end.ns)
            && end.ns.shootMR.None? && DnsClean(straight.ns) && (kind != ForceDelete ==> DnsClean(end.ns))
  {
    hide Step;
    var start := Config(ns, AtDnsKeep(kind));
    RunKeepsInv(Fresh(ns), turns);
    var dns := DnsPartCompletes(start, kind);
    var rest := RunShadows(Run(start, dns), Fresh(ns), turns, kind);
    RunAppend(start, dns, rest);
    RunAppend(start, dns + rest, [Answer(Ok)]);
    LastWait(Run(start, dns + rest), kind);
    clean := dns + rest + [Answer(Ok)];
  }

  /**
   A teardown abandoned at any point, in a run of its own attempts, can be completed by beginning it once more without
   a failure, with the record gone or going, and an uninterrupted attempt from the first state leaves the same shoot.
   */
  lemma AbandonedTeardownCanBeCompleted(kind: Teardown, ns: Namespace, before: seq<Turn>)
    returns (turns: seq<Turn>, clean: seq<Turn>)
    requires OnlyTeardowns(before, {kind})
    requires Run(Fresh(ns), before).pc.Idle? && T.CanFinish(Run(Fresh(ns), before).ns, kind)
    ensures T.AllProductive(turns) && Uninterrupted(clean)
    ensures var end := Run(Fresh(ns), before + ([Begin(TearingDown(kind))] + turns));
            var straight := Run(Config(ns, AtDnsKeep(kind)), clean);
            && end.pc == Idle(Succeeded(TearingDown(kind))) && end.ns.shootMR.None? && DnsClean(end.ns)
            && straight.pc == end.pc && SameShoot(straight.ns, end.ns) && DnsClean(straight.ns)
  {
    var left := Run(Fresh(ns), before);
    RunKeepsInv(Fresh(ns), before);
    turns := T.TeardownFinishes(left.(pc := AtDnsKeep(kind)), kind);
    var again := [Begin(TearingDown(kind))] + turns;
    RunAppend(Fresh(ns), before, again);
    RunStep(left, Begin(TearingDown(kind)), turns);
    T.FailureFreeAttempt(left.(pc := AtDnsKeep(kind)), turns, kind);
    clean := TeardownIsCrashConsistent(kind, ns, before + again);
  }

  // ---- when the result is the same in every environment

  /** What a completed teardown makes of the shoot. */
  function TeardownResult(kind: Teardown, ns: Namespace): Content {
    if kind == Delete && ns.shootMR.Some? && !ns.shootMR.value.keepObjects then ns.objects - ns.shootMR.value.applied
    else ns.objects
  }

  /**
   Over a shoot resource-manager has settled, the result is unique: every run of attempts of this teardown, however
   they fail and crash and whatever the environment does, first succeeds with this shoot.
   */
  lemma SettledTeardownHasOneResult(kind: Teardown, ns: Namespace, turns: seq<Turn>)
    requires W.Settled(ns) && (Doomed(ns.shootMR) ==> kind == Delete) && OnlyTeardowns(turns, {kind})
    requires Run(Fresh(ns), turns).pc == Idle(Succeeded(TearingDown(kind)))
    ensures Run(Fresh(ns), turns).ns.objects == TeardownResult(kind, ns)
  {
    if kind == Delete && ns.shootMR.Some? && !ns.shootMR.value.keepObjects {
      W.DeleteRemovesManagedObjects(ns, turns);
      assert Run(Fresh(ns), turns).ns.objects.Keys == ns.objects.Keys - ns.shootMR.value.applied;
    } else {
      W.RunUntouched(Fresh(ns), turns, ns.objects, {kind});
    }
  }

  // ---- the flag a Migrate leaves behind

  /**
   How Delete comes to keep the objects: a Migrate abandoned after setting the flag, then a Delete, not one call of
   either failing. The shoot resource is released and every object stays.
   */
  lemma AbandonedMigrateMakesDeleteKeepObjects(ns: Namespace) returns (dns: seq<Turn>, deleting: seq<Turn>)
    requires ns.shootMR.Some?
    ensures T.AllProductive(dns) && T.AllProductive(deleting)
    ensures var migrating := [Begin(TearingDown(Migrate))] + dns;
            var flagged := migrating + [Answer(Ok), Crash];
            var end := Run(Fresh(ns), flagged + ([Begin(TearingDown(Delete))] + deleting));
            && Run(Fresh(ns), migrating).pc == AtKeep(Migrate, false)
            && Run(Fresh(ns), flagged) == Config(Run(Fresh(ns), flagged).ns, Idle(Crashed))
            && Run(Fresh(ns), flagged).ns.shootMR == Some(ns.shootMR.value.(keepObjects := true))
            && end.pc == Idle(Succeeded(TearingDown(Delete))) && end.ns.shootMR.None? && end.ns.objects == ns.objects
  {
    var start := Config(ns, AtDnsKeep(Migrate));
    dns := DnsPartCompletes(start, Migrate);
    var migrating := [Begin(TearingDown(Migrate))] + dns;
    RunStep(Fresh(ns), Begin(TearingDown(Migrate)), dns);
    hide Step;
    var kept := Run(start, dns).ns.(shootMR := Some(ns.shootMR.value.(keepObjects := true)));
    CrashAfterKeep(Run(start, dns));
    RunAppend(Fresh(ns), migrating, [Answer(Ok), Crash]);

    deleting := DeleteOverKeptObjects(kept);
    var flagged, finish := migrating + [Answer(Ok), Crash], [Begin(TearingDown(Delete))] + deleting;
    RunAppend(Fresh(ns), flagged, finish);
    RunStep(Config(kept, Idle(Crashed)), Begin(TearingDown(Delete)), deleting);
  }

  lemma CrashAfterKeep(c: Config)
    requires c.pc == AtKeep(Migrate, false) && c.ns.shootMR.Some?
    ensures Run(c, [Answer(Ok), Crash]) ==
            Config(c.ns.(shootMR := Some(c.ns.shootMR.value.(keepObjects := true))), Idle(Crashed))
  {
    RunStep(c, Answer(Ok), [Crash]);
    RunStep(Step(c, Answer(Ok)), Crash, []);
  }

  /** A Delete that finds the flag set releases the resource over an untouched shoot. */
  lemma DeleteOverKeptObjects(ns: Namespace) returns (turns: seq<Turn>)
    requires ns.shootMR.Some? && ns.shootMR.value.keepObjects
    ensures T.AllProductive(turns)
    ensures var end := Run(Config(ns, AtDnsKeep(Delete)), turns);
            end.pc == Idle(Succeeded(TearingDown(Delete))) && end.ns.shootMR.None? && end.ns.objects == ns.objects
  {
    var start := Config(ns, AtDnsKeep(Delete));
    var dns := DnsPartCompletes(start, Delete);
    var finish := [Answer(Ok), Env(FinalizeShootMR), Answer(Ok)];
    ReleaseKeepingObjects(Run(start, dns));
    RunAppend(start, dns, finish);
    turns := dns + finish;
  }

  lemma ReleaseKeepingObjects(c: Config)
    requires c.pc == AtDelete(Delete, false) && c.ns.shootMR.Some? && c.ns.shootMR.value.keepObjects
    ensures Run(c, [Answer(Ok), Env(FinalizeShootMR), Answer(Ok)]) ==
            Config(c.ns.(shootMR := None), Idle(Succeeded(TearingDown(Delete))))
  {
    AnswerAtDelete(c, Ok);
    var marked := Step(c, Answer(Ok));
    RunStep(c, Answer(Ok), [Env(FinalizeShootMR), Answer(Ok)]);
    RunStep(marked, Env(FinalizeShootMR), [Answer(Ok)]);
    LastWait(marked.(ns := c.ns.(shootMR := None)), Delete);
  }
}
