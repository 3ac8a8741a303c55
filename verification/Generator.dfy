/** Generating the bundle of one configuration: eight fixed documents plus the CRDs. */
module Generator {
  import opened Wrappers
  import opened Settings
  import opened Objects
  import Crds = CrdSplitter

  /**
   What the generator takes from outside: the image vector, the embedded stream, and the files whose encoding fails.
   */
  datatype BuildEnv = BuildEnv(image: Option<string>, crds: seq<Crds.Document>, encodeFails: set<string>)

  datatype BuildError = EncodeFailed(file: string) | ImageMissing | BadCrds(cause: Crds.SplitError)

  type Files = map<string, K8sObject>

  const FIXED_COUNT: nat := 8

  /** The fixed documents, in the order in which they are generated. */
  function FixedFile(i: nat): string {
    match i
    case 0 => "serviceaccount.yaml"
    case 1 => "clusterrole.yaml"
    case 2 => "clusterrolebinding.yaml"
    case 3 => "deployment.yaml"
    case 4 => "service.yaml"
    case 5 => "ingressclass.yaml"
    case 6 => "networkpolicy.yaml"
    case _ => "poddisruptionbudget.yaml"
  }

  function FixedObject(cfg: Config, image: string, i: nat): K8sObject {
    match i
    case 0 => ServiceAccountOf()
    case 1 => ClusterRoleOf(cfg)
    case 2 => ClusterRoleBindingOf()
    case 3 => DeploymentOf(cfg, image)
    case 4 => ServiceOf()
    case 5 => IngressClassOf(cfg)
    case 6 => NetworkPolicyOf()
    case _ => PodDisruptionBudgetOf()
  }

  /** The map from the first `n` names to the first `n` values. */
  function Tabulate<V>(names: nat -> string, values: nat -> V, n: nat): map<string, V> {
    if n == 0 then map[] else Tabulate(names, values, n - 1)[names(n - 1) := values(n - 1)]
  }

  function FixedObjects(cfg: Config, image: string): nat -> K8sObject {
    (i: nat) => FixedObject(cfg, image, i)
  }

  function FixedDocuments(cfg: Config, image: string, n: nat): Files {
    Tabulate(FixedFile, FixedObjects(cfg, image), n)
  }

  /** The image as far as it is known; only looked at when there is one. */
  function ImageOf(build: BuildEnv): string {
    if build.image.Some? then build.image.value else ""
  }

  /** The first step that fails: files are encoded in order, and the image is looked up before the deployment. */
  function FirstFault(build: BuildEnv, i: nat): Option<BuildError>
    requires i <= FIXED_COUNT
    decreases FIXED_COUNT - i
  {
    if i == FIXED_COUNT then None
    else if i == 3 && build.image.None? then Some(ImageMissing)
    else if FixedFile(i) in build.encodeFails then Some(EncodeFailed(FixedFile(i)))
    else FirstFault(build, i + 1)
  }

  function Documents(cfg: Config, build: BuildEnv): Result<Files, BuildError> {
    match FirstFault(build, 0)
    case Some(e) => Failure(e)
    case None =>
      match Crds.Split(build.crds)
      case Failure(e) => Failure(BadCrds(e))
      case Success(crds) => Success(FixedDocuments(cfg, ImageOf(build), FIXED_COUNT) + crds)
  }

  /** The map after the first `n` files, with no fault so far. */
  ghost predicate FilledUpTo(cfg: Config, build: BuildEnv, n: nat, resources: Files)
    requires n <= FIXED_COUNT
  {
    && FirstFault(build, 0) == FirstFault(build, n)
    && (n > 3 ==> build.image.Some?)
    && resources == FixedDocuments(cfg, ImageOf(build), n)
  }

  lemma NoneFilled(cfg: Config, build: BuildEnv)
    ensures FilledUpTo(cfg, build, 0, map[])
  {
  }

  lemma AllFilled(cfg: Config, build: BuildEnv, resources: Files)
    requires FilledUpTo(cfg, build, FIXED_COUNT, resources)
    ensures FirstFault(build, 0).None? && resources == FixedDocuments(cfg, ImageOf(build), FIXED_COUNT)
  {
  }

  lemma MissingImage(cfg: Config, build: BuildEnv, resources: Files)
    requires FilledUpTo(cfg, build, 3, resources) && build.image.None?
    ensures FirstFault(build, 0) == Some(ImageMissing)
  {
  }

  /** Encodes one document into the map, or reports which file failed. */
  method AddFile(ghost cfg: Config, build: BuildEnv, ghost n: nat, resources: Files, file: string, o: K8sObject)
    returns (r: Result<Files, BuildError>)
    requires n < FIXED_COUNT && FilledUpTo(cfg, build, n, resources) && (n == 3 ==> build.image.Some?)
    requires file == FixedFile(n) && o == FixedObject(cfg, ImageOf(build), n)
    ensures r.Success? ==> FilledUpTo(cfg, build, n + 1, r.value)
    ensures r.Failure? ==> FirstFault(build, 0) == Some(r.error)
  {
    if file in build.encodeFails {
      return Failure(EncodeFailed(file));
    }
    return Success(resources[file := o]);
  }

  /** The generator itself: fill the map file by file, returning early on the first failure. */
  method GenerateResources(cfg: Config, build: BuildEnv) returns (r: Result<Files, BuildError>)
    ensures r == Documents(cfg, build)
  {
    hide FilledUpTo, FirstFault, FixedDocuments;
    hide DeploymentOf, ClusterRoleOf, ServiceOf, NetworkPolicyOf, PodDisruptionBudgetOf;
    NoneFilled(cfg, build);
    r := AddFile(cfg, build, 0, map[], "serviceaccount.yaml", ServiceAccountOf());
    if r.Failure? {
      return;
    }
    r := AddFile(cfg, build, 1, r.value, "clusterrole.yaml", ClusterRoleOf(cfg));
    if r.Failure? {
      return;
    }
    r := AddFile(cfg, build, 2, r.value, "clusterrolebinding.yaml", ClusterRoleBindingOf());
    if r.Failure? {
      return;
    }
    if build.image.None? {
      MissingImage(cfg, build, r.value);
      return Failure(ImageMissing);
    }
    r := AddFile(cfg, build, 3, r.value, "deployment.yaml", DeploymentOf(cfg, build.image.value));
    if r.Failure? {
      return;
    }
    r := AddFile(cfg, build, 4, r.value, "service.yaml", ServiceOf());
    if r.Failure? {
      return;
    }
    r := AddFile(cfg, build, 5, r.value, "ingressclass.yaml", IngressClassOf(cfg));
    if r.Failure? {
      return;
    }
    r := AddFile(cfg, build, 6, r.value, "networkpolicy.yaml", NetworkPolicyOf());
    if r.Failure? {
      return;
    }
    r := AddFile(cfg, build, 7, r.value, "poddisruptionbudget.yaml", PodDisruptionBudgetOf());
    if r.Failure? {
      return;
    }
    AllFilled(cfg, build, r.value);
    var crds := Crds.SplitCrds(build.crds);
    if crds.Failure? {
      return Failure(BadCrds(crds.error));
    }
    return Success(r.value + crds.value);
  }

  lemma {:induction false} NoFault(build: BuildEnv, i: nat)
    requires i <= FIXED_COUNT
    ensures FirstFault(build, i).None? <==>
            (i <= 3 ==> build.image.Some?) && forall j :: i <= j < FIXED_COUNT ==> FixedFile(j) !in build.encodeFails
    decreases FIXED_COUNT - i
  {
    if i < FIXED_COUNT {
      NoFault(build, i + 1);
    }
  }

  /** Generation succeeds exactly when the image is known, every fixed document encodes and the stream splits. */
  lemma DocumentsSucceedExactly(cfg: Config, build: BuildEnv)
    ensures Documents(cfg, build).Success? <==>
            && build.image.Some?
            && (forall j :: 0 <= j < FIXED_COUNT ==> FixedFile(j) !in build.encodeFails)
            && Crds.Split(build.crds).Success?
  {
    NoFault(build, 0);
  }

  /** The file does not encode, or is the deployment and the image is unknown. */
  predicate Faulty(build: BuildEnv, k: nat) {
    FixedFile(k) in build.encodeFails || (k == 3 && build.image.None?)
  }

  lemma {:induction false} FirstFaultAt(build: BuildEnv, i: nat, j: nat)
    requires i <= j < FIXED_COUNT
    requires Faulty(build, j) && forall k: nat :: i <= k < j ==> !Faulty(build, k)
    ensures FirstFault(build, i) ==
            Some(if j == 3 && build.image.None? then ImageMissing else EncodeFailed(FixedFile(j)))
    decreases j - i
  {
    if i < j {
      assert !Faulty(build, i);
      FirstFaultAt(build, i + 1, j);
    }
  }

  /** Generation reports the first step that fails: the encodings in order, the image ahead of the deployment's. */
  lemma FirstFaultDecides(cfg: Config, build: BuildEnv, j: nat)
    requires j < FIXED_COUNT && Faulty(build, j) && forall k: nat :: k < j ==> !Faulty(build, k)
    ensures Documents(cfg, build) ==
            Failure(if j == 3 && build.image.None? then ImageMissing else EncodeFailed(FixedFile(j)))
  {
    FirstFaultAt(build, 0, j);
  }

  /** The number of a fixed file, told from the length of its name. */
  function Slot(file: string): nat {
    match |file|
    case 19 => 0
    case 16 => 1
    case 23 => 2
    case 15 => 3
    case 12 => 4
    case 17 => 5
    case 18 => 6
    case _ => 7
  }

  /** Which makes the fixed file names pairwise distinct. */
  lemma FixedFilesHaveSlots(i: nat)
    requires i < FIXED_COUNT
    ensures Slot(FixedFile(i)) == i
  {
  }

  lemma FixedFilesAreNoCrdFiles(i: nat, name: string)
    ensures FixedFile(i) != Crds.FileOf(name)
  {
    var f := FixedFile(i);
    assert f[0] != 'c' || f[1] == 'l';
    assert Crds.FileOf(name)[0] == 'c' && Crds.FileOf(name)[1] == 'r';
  }

  lemma {:induction false} TabulatedKey<V>(names: nat -> string, values: nat -> V, n: nat, slot: string -> nat,
                                           f: string)
    requires forall i: nat :: i < n ==> slot(names(i)) == i
    requires f in Tabulate(names, values, n)
    ensures slot(f) < n && f == names(slot(f))
  {
    if f != names(n - 1) {
      TabulatedKey(names, values, n - 1, slot, f);
    }
  }

  lemma {:induction false} TabulatedValue<V>(names: nat -> string, values: nat -> V, n: nat, slot: string -> nat,
                                             i: nat)
    requires forall j: nat :: j < n ==> slot(names(j)) == j
    requires i < n
    ensures names(i) in Tabulate(names, values, n) && Tabulate(names, values, n)[names(i)] == values(i)
  {
    if i < n - 1 {
      TabulatedValue(names, values, n - 1, slot, i);
      assert slot(names(i)) != slot(names(n - 1));
    }
  }

  lemma {:induction false} TabulatedSize<V>(names: nat -> string, values: nat -> V, n: nat, slot: string -> nat)
    requires forall i: nat :: i < n ==> slot(names(i)) == i
    ensures |Tabulate(names, values, n)| == n
  {
    if n > 0 {
      TabulatedSize(names, values, n - 1, slot);
      if names(n - 1) in Tabulate(names, values, n - 1) {
        TabulatedKey(names, values, n - 1, slot, names(n - 1));
      }
    }
  }

  lemma TabulateHolds<V(!new)>(names: nat -> string, values: nat -> V, n: nat, slot: string -> nat)
    requires forall i: nat :: i < n ==> slot(names(i)) == i
    ensures Holds(Tabulate(names, values, n), names, values, n)
  {
    TabulatedSize(names, values, n, slot);
    forall f | f in Tabulate(names, values, n) ensures exists i: nat :: i < n && f == names(i) {
      TabulatedKey(names, values, n, slot, f);
    }
    forall i: nat | i < n
      ensures names(i) in Tabulate(names, values, n) && Tabulate(names, values, n)[names(i)] == values(i)
    {
      TabulatedValue(names, values, n, slot, i);
    }
  }

  /** The files of `n` numbered documents, each with its own document. */
  ghost predicate Holds<V(!new)>(m: map<string, V>, names: nat -> string, values: nat -> V, n: nat) {
    && |m| == n
    && (forall f :: f in m ==> exists i: nat :: i < n && f == names(i))
    && (forall i: nat :: i < n ==> names(i) in m && m[names(i)] == values(i))
  }

  lemma FixedDocumentsHold(cfg: Config, image: string)
    ensures Holds(FixedDocuments(cfg, image, FIXED_COUNT), FixedFile, FixedObjects(cfg, image), FIXED_COUNT)
  {
    forall i: nat | i < FIXED_COUNT ensures Slot(FixedFile(i)) == i {
      FixedFilesHaveSlots(i);
    }
    TabulateHolds(FixedFile, FixedObjects(cfg, image), FIXED_COUNT, Slot);
  }

  /** `files` holds all of both maps and nothing else. */
  ghost predicate Merges(files: Files, crds: Files, names: nat -> string, objects: nat -> K8sObject, n: nat) {
    && (forall i: nat :: i < n ==> names(i) in files && files[names(i)] == objects(i))
    && (forall f :: f in crds ==> f in files && files[f] == crds[f])
    && (forall f :: f in files ==> f in crds || exists i: nat :: i < n && f == names(i))
    && |files| == n + |crds|
  }

  lemma UnionMerges(fixed: Files, crds: Files, names: nat -> string, objects: nat -> K8sObject, n: nat)
    requires Holds(fixed, names, objects, n)
    requires forall i: nat :: i < n ==> names(i) !in crds
    ensures Merges(fixed + crds, crds, names, objects, n)
  {
    DisjointUnion(fixed, crds);
  }

  /** Nothing is lost in the merge: each fixed document and each split CRD is in the bundle, and nothing else is. */
  lemma BundleLosesNothing(cfg: Config, build: BuildEnv)
    requires Documents(cfg, build).Success?
    ensures build.image.Some? && Crds.Split(build.crds).Success?
    ensures Merges(Documents(cfg, build).value, Crds.Split(build.crds).value, FixedFile,
                   FixedObjects(cfg, build.image.value), FIXED_COUNT)
  {
    NoFault(build, 0);
    var crds := Crds.Split(build.crds).value;
    FixedDocumentsHold(cfg, ImageOf(build));
    Crds.SplitFilesNameTheirCrds(build.crds);
    forall i: nat | i < FIXED_COUNT ensures FixedFile(i) !in crds {
      if FixedFile(i) in crds {
        FixedFilesAreNoCrdFiles(i, crds[FixedFile(i)].name);
      }
    }
    UnionMerges(FixedDocuments(cfg, ImageOf(build), FIXED_COUNT), crds, FixedFile,
                FixedObjects(cfg, ImageOf(build)), FIXED_COUNT);
  }

  /** The parts of a bundle by number, whatever their files are called. */
  lemma BundleParts(cfg: Config, build: BuildEnv) returns (names: nat -> string, objects: nat -> K8sObject, crds: Files)
    requires Documents(cfg, build).Success? && build.image.Some?
    ensures Merges(Documents(cfg, build).value, crds, names, objects, FIXED_COUNT)
    ensures objects == FixedObjects(cfg, build.image.value) && crds == Crds.Collected(build.crds)
    ensures forall f :: f in crds ==> crds[f].CustomResourceDefinition?
  {
    hide Documents, FixedFile, FixedObject, Crds.Split, Crds.Collected, Merges;
    BundleLosesNothing(cfg, build);
    Crds.SplitFilesNameTheirCrds(build.crds);
    Crds.SplitYieldsCollected(build.crds);
    names, objects, crds := FixedFile, FixedObjects(cfg, build.image.value), Crds.Split(build.crds).value;
  }

  lemma DisjointUnion<K, V>(a: map<K, V>, b: map<K, V>)
    requires a.Keys !! b.Keys
    ensures |a + b| == |a| + |b|
  {
    assert (a + b).Keys == a.Keys + b.Keys;
    assert |a.Keys + b.Keys| == |a.Keys| + |b.Keys|;
  }

  /** No two files of a bundle describe the same cluster object. */
  ghost predicate KeysDistinct(files: Files) {
    forall f, g :: f in files && g in files && KeyOf(files[f]) == KeyOf(files[g]) ==> f == g
  }

  function FixedKind(i: nat): Kind {
    match i
    case 0 => ServiceAccountKind
    case 1 => ClusterRoleKind
    case 2 => ClusterRoleBindingKind
    case 3 => DeploymentKind
    case 4 => ServiceKind
    case 5 => IngressClassKind
    case 6 => NetworkPolicyKind
    case _ => PodDisruptionBudgetKind
  }

  lemma FixedObjectKind(cfg: Config, image: string, i: nat)
    ensures KindOf(FixedObject(cfg, image, i)) == FixedKind(i)
  {
  }

  ghost predicate FillsSlot(f: string, o: K8sObject, names: nat -> string, i: nat) {
    i < FIXED_COUNT && f == names(i) && KindOf(o) == FixedKind(i)
  }

  /** A file is a CRD under its own name or fills the numbered slot its object's kind belongs to. */
  ghost predicate Placed(f: string, o: K8sObject, names: nat -> string) {
    (o.CustomResourceDefinition? && f == Crds.FileOf(o.name)) || exists i: nat :: FillsSlot(f, o, names, i)
  }

  ghost predicate Sorted(files: Files, names: nat -> string) {
    forall f :: f in files ==> Placed(f, files[f], names)
  }

  lemma SortedFixed(fixed: Files, names: nat -> string, objects: nat -> K8sObject)
    requires Holds(fixed, names, objects, FIXED_COUNT)
    requires forall i: nat :: i < FIXED_COUNT ==> KindOf(objects(i)) == FixedKind(i)
    ensures Sorted(fixed, names)
  {
    forall f | f in fixed ensures Placed(f, fixed[f], names) {
      var i: nat :| i < FIXED_COUNT && f == names(i);
      assert fixed[names(i)] == objects(i);
      assert FillsSlot(f, fixed[f], names, i);
    }
  }

  lemma SortedUnion(fixed: Files, crds: Files, names: nat -> string)
    requires Sorted(fixed, names) && Sorted(crds, names)
    ensures Sorted(fixed + crds, names)
  {
  }

  lemma KindHasOneSlot(i: nat, j: nat)
    requires i < FIXED_COUNT && j < FIXED_COUNT && FixedKind(i) == FixedKind(j)
    ensures i == j && FixedKind(i) != CrdKind
  {
  }

  /** One cluster object has one place. */
  lemma SamePlace(f: string, o: K8sObject, g: string, p: K8sObject, names: nat -> string)
    requires Placed(f, o, names) && Placed(g, p, names) && KeyOf(o) == KeyOf(p)
    ensures f == g
  {
    assert KindOf(o) == KindOf(p);
    if i: nat :| FillsSlot(f, o, names, i) {
      KindHasOneSlot(i, i);
      var j: nat :| FillsSlot(g, p, names, j);
      KindHasOneSlot(i, j);
    } else if j: nat :| FillsSlot(g, p, names, j) {
      KindHasOneSlot(j, j);
    }
  }

  lemma SortedKeysDistinct(files: Files, names: nat -> string)
    requires Sorted(files, names)
    ensures KeysDistinct(files)
  {
    forall f, g | f in files && g in files && KeyOf(files[f]) == KeyOf(files[g]) ensures f == g {
      SamePlace(f, files[f], g, files[g], names);
    }
  }

  lemma BundleKeysDistinct(cfg: Config, build: BuildEnv)
    requires Documents(cfg, build).Success?
    ensures KeysDistinct(Documents(cfg, build).value)
  {
    var objects := FixedObjects(cfg, ImageOf(build));
    FixedDocumentsHold(cfg, ImageOf(build));
    Crds.SplitFilesNameTheirCrds(build.crds);
    forall i: nat | i < FIXED_COUNT ensures KindOf(objects(i)) == FixedKind(i) {
      FixedObjectKind(cfg, ImageOf(build), i);
    }
    SortedFixed(FixedDocuments(cfg, ImageOf(build), FIXED_COUNT), FixedFile, objects);
    SortedUnion(FixedDocuments(cfg, ImageOf(build), FIXED_COUNT), Crds.Split(build.crds).value, FixedFile);
    SortedKeysDistinct(Documents(cfg, build).value, FixedFile);
  }

  /** The documents as the cluster will store them, by object identity. */
  function ByKey(files: Files): Content
    requires KeysDistinct(files)
  {
    map f | f in files :: KeyOf(files[f]) := files[f]
  }

  datatype Input = Input(provided: ProviderConfig, build: BuildEnv)

  datatype PlanError = BadSettings(settings: SettingsError) | BadBundle(bundle: BuildError)

  /** The content of the bundle of one configuration. */
  function PlanOf(cfg: Config, build: BuildEnv): Result<Content, PlanError> {
    match Documents(cfg, build)
    case Failure(e) => Failure(BadBundle(e))
    case Success(files) =>
      BundleKeysDistinct(cfg, build);
      Success(ByKey(files))
  }

  /** The bundle as it is handed to the cluster. */
  method GenerateContent(cfg: Config, build: BuildEnv) returns (r: Result<Content, PlanError>)
    ensures r == PlanOf(cfg, build)
  {
    var files := GenerateResources(cfg, build);
    if files.Failure? {
      return Failure(BadBundle(files.error));
    }
    BundleKeysDistinct(cfg, build);
    return Success(ByKey(files.value));
  }

  /** What a reconciliation with this input would write, or why it writes nothing. */
  function Plan(input: Input): Result<Content, PlanError> {
    match Merged(input.provided)
    case Failure(e) => Failure(BadSettings(e))
    case Success(cfg) => PlanOf(cfg, input.build)
  }

  /**
   Nothing can be written: the log level is rejected, the image is unknown, a fixed document does not encode, or the
   CRD stream is broken or names no CRD.
   */
  ghost predicate Unplannable(input: Input) {
    || LevelRejected(input.provided) || input.build.image.None?
    || (exists j :: 0 <= j < FIXED_COUNT && FixedFile(j) in input.build.encodeFails)
    || (exists d :: d in input.build.crds && Crds.Breaks(d))
    || Crds.DefinedNames(input.build.crds) == {}
  }

  lemma PlanFailsExactly(input: Input)
    ensures Plan(input).Failure? <==> Unplannable(input)
  {
    if Merged(input.provided).Success? {
      DocumentsSucceedExactly(Merged(input.provided).value, input.build);
      Crds.SplitFailsExactly(input.build.crds);
    }
  }
}
