/**
 The cluster state one Extension touches, and how everything outside the extension may change it.

 gardener-resource-manager, the DNS extension and the API server are not part of the repository; the functions below
 state what is assumed of them.
 */
module Cluster {
  import opened Wrappers
  import opened Objects

  /** `applied` is what resource-manager has recorded as applied, and would delete again. */
  datatype ManagedResource = ManagedResource(content: Content, applied: set<ObjKey>, keepObjects: bool,
                                             terminating: bool)

  datatype Record = Record(spec: DnsSpec, confirmed: bool, terminating: bool)

  datatype Shoot = Shoot(name: string, deleting: bool, hibernated: bool, domain: Option<string>)

  /** What the extension only reads; it may change at any time. */
  datatype Surroundings = Surroundings(shoot: Option<Shoot>, externals: map<string, DnsRef>,
                                       loadBalancer: seq<LbIngress>, reachable: bool)

  datatype Namespace = Namespace(shootMR: Option<ManagedResource>, seedMR: Option<ManagedResource>,
                                 record: Option<Record>, objects: Content, around: Surroundings)

  datatype Which = ShootMR | SeedMR

  predicate Live(mr: Option<ManagedResource>) {
    mr.Some? && !mr.value.terminating
  }

  /** Terminating with the flag cleared: resource-manager is deleting the managed objects. */
  predicate Doomed(mr: Option<ManagedResource>) {
    mr.Some? && mr.value.terminating && !mr.value.keepObjects
  }

  /** The steps of the environment, each atomic. */
  datatype EnvTurn =
    | ApplyObject(key: ObjKey)
    | PruneObject(key: ObjKey)
    | DeleteObject(key: ObjKey)
    | FinalizeShootMR
    | ApplyRecord
    | DeleteSeedObject(key: ObjKey)
    | FinalizeSeedMR
    | RemoveRecord
    | Observe(around: Surroundings)

  /** Resource-manager releases a terminating resource at once if the objects stay, else when none is left. */
  function Finalized(mr: Option<ManagedResource>): Option<ManagedResource> {
    if mr.Some? && mr.value.terminating && (mr.value.keepObjects || mr.value.applied == {}) then None else mr
  }

  function Forget(mr: ManagedResource, k: ObjKey): ManagedResource {
    mr.(applied := mr.applied - {k})
  }

  function EnvStep(ns: Namespace, e: EnvTurn): Namespace {
    match e
    case ApplyObject(k) =>
      if Live(ns.shootMR) && k in ns.shootMR.value.content && ns.around.reachable then
        var mr := ns.shootMR.value;
        ns.(objects := ns.objects[k := mr.content[k]], shootMR := Some(mr.(applied := mr.applied + {k})))
      else ns
    case PruneObject(k) =>
      if Live(ns.shootMR) && k in ns.shootMR.value.applied && k !in ns.shootMR.value.content && ns.around.reachable then
        ns.(objects := ns.objects - {k}, shootMR := Some(Forget(ns.shootMR.value, k)))
      else ns
    case DeleteObject(k) =>
      if Doomed(ns.shootMR) && k in ns.shootMR.value.applied && ns.around.reachable then
        ns.(objects := ns.objects - {k}, shootMR := Some(Forget(ns.shootMR.value, k)))
      else ns
    case FinalizeShootMR => ns.(shootMR := Finalized(ns.shootMR))
    case ApplyRecord =>
      if Live(ns.seedMR) && HasManifest(ns.seedMR.value) then
        var mr := ns.seedMR.value;
        // Applying the manifest reverts the confirmation annotation and leaves a pending deletion pending.
        ns.(record := Some(Record(mr.content[OwnRecord].spec, false, ns.record.Some? && ns.record.value.terminating)),
            seedMR := Some(mr.(applied := mr.applied + {OwnRecord})))
      else ns
    case DeleteSeedObject(k) =>
      if Doomed(ns.seedMR) && k in ns.seedMR.value.applied then
        if k != OwnRecord || ns.record.None? then ns.(seedMR := Some(Forget(ns.seedMR.value, k)))
        // The deletion-protection webhook admits the deletion only of a confirmed record.
        else if ns.record.value.confirmed then ns.(record := Some(ns.record.value.(terminating := true)))
        else ns
      else ns
    case FinalizeSeedMR => ns.(seedMR := Finalized(ns.seedMR))
    case RemoveRecord => if ns.record.Some? && ns.record.value.terminating then ns.(record := None) else ns
    case Observe(around) => ns.(around := around)
  }

  predicate HasManifest(mr: ManagedResource) {
    OwnRecord in mr.content && mr.content[OwnRecord].DnsRecordManifest?
  }

  /** The API calls of the extension. */
  datatype Call =
    | NoCall
    | GetCluster
    | CreateForShoot(content: Content)
    | GetExternalRecord(name: string)
    | NewShootClient
    | GetService
    | CreateForSeed(spec: DnsSpec)
    | SetKeepObjects(which: Which)
    | DeleteMR(which: Which)
    | PollDeleted(which: Which)
    | GetRecord
    | PatchRecord(base: Record, desired: Record)
    | DeleteRecord

  /** Done as asked, still waiting, failed, no such object, or the object asked for. */
  datatype Response =
    | Done
    | Pending
    | Failed
    | NotFound
    | GotShoot(shoot: Shoot)
    | GotRef(ref: DnsRef)
    | GotService(loadBalancer: seq<LbIngress>)
    | GotRecord(record: Record)

  /** A call succeeds, fails without effect, or takes effect while its reply is lost. */
  datatype Reply = Ok | Err | Lost

  function MRof(ns: Namespace, which: Which): Option<ManagedResource> {
    if which.ShootMR? then ns.shootMR else ns.seedMR
  }

  function WithMR(ns: Namespace, which: Which, mr: Option<ManagedResource>): Namespace {
    if which.ShootMR? then ns.(shootMR := mr) else ns.(seedMR := mr)
  }

  /** Create-or-update: an update leaves a pending deletion pending. */
  function Upserted(mr: Option<ManagedResource>, content: Content): Option<ManagedResource> {
    Some(if mr.Some? then mr.value.(content := content, keepObjects := false)
         else ManagedResource(content, {}, false, false))
  }

  /** The effect of a call that reaches the API server, and the server's answer. */
  function Effect(call: Call, ns: Namespace): (Namespace, Response) {
    match call
    case NoCall => (ns, Done)
    case GetCluster => (ns, if ns.around.shoot.Some? then GotShoot(ns.around.shoot.value) else NotFound)
    case CreateForShoot(content) => (ns.(shootMR := Upserted(ns.shootMR, content)), Done)
    case GetExternalRecord(name) =>
      (ns, if name in ns.around.externals then GotRef(ns.around.externals[name]) else NotFound)
    case NewShootClient => (ns, Done)
    case GetService =>
      (ns, if !ns.around.reachable then Failed
       else if SERVICE_KEY in ns.objects then GotService(ns.around.loadBalancer) else NotFound)
    case CreateForSeed(spec) =>
      (ns.(seedMR := Upserted(ns.seedMR, map[OwnRecord := DnsRecordManifest(spec)])), Done)
    case SetKeepObjects(which) =>
      var mr := MRof(ns, which);
      if mr.None? then (ns, NotFound) else (WithMR(ns, which, Some(mr.value.(keepObjects := true))), Done)
    case DeleteMR(which) =>
      var mr := MRof(ns, which);
      if mr.None? then (ns, Done) else (WithMR(ns, which, Some(mr.value.(terminating := true))), Done)
    case PollDeleted(which) => (ns, if MRof(ns, which).None? then Done else Pending)
    case GetRecord => (ns, if ns.record.Some? then GotRecord(ns.record.value) else NotFound)
    case PatchRecord(base, desired) =>
      // A merge patch carries only the difference between the two copies.
      if ns.record.None? then (ns, NotFound)
      else if base.confirmed == desired.confirmed then (ns, Done)
      else (ns.(record := Some(ns.record.value.(confirmed := desired.confirmed))), Done)
    case DeleteRecord =>
      if ns.record.None? then (ns, NotFound)
      else if !ns.record.value.confirmed then (ns, Failed)
      else (ns.(record := Some(ns.record.value.(terminating := true))), Done)
  }

  function Perform(call: Call, ns: Namespace, r: Reply): (Namespace, Response) {
    if r.Err? then (ns, Failed)
    else
      var (after, answer) := Effect(call, ns);
      (after, if r.Lost? then Failed else answer)
  }
}
