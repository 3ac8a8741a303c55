/**
 The API server as the extension's client sees it: maps keyed by namespace and name, shared by all shoots of a seed, and
 changed by the environment between any two calls.
 */
module Api {
  import opened Wrappers
  import opened Objects
  import opened Cluster
  import opened Lifecycle

  datatype ObjectKey = ObjectKey(namespace: string, name: string)

  /** The part of a namespace's state that lives outside the seed. */
  datatype ShootSide = ShootSide(objects: Content, around: Surroundings)

  datatype Store = Store(resources: map<ObjectKey, ManagedResource>, records: map<ObjectKey, Record>,
                         shoots: map<string, ShootSide>)

  const SHOOT_MR_NAME := "extension-traefik"
  const SEED_MR_NAME := "extension-traefik-ingress-dns"

  function NameOf(which: Which): string {
    if which.ShootMR? then SHOOT_MR_NAME else SEED_MR_NAME
  }

  function KeyIn(namespace: string, which: Which): ObjectKey {
    ObjectKey(namespace, NameOf(which))
  }

  lemma KeysDiffer(n: string, w: Which, m: string, v: Which)
    ensures KeyIn(n, w) == KeyIn(m, v) <==> n == m && w == v
  {
    assert |SHOOT_MR_NAME| != |SEED_MR_NAME|;
  }

  function SideOf(s: Store, namespace: string): ShootSide {
    if namespace in s.shoots then s.shoots[namespace] else ShootSide(map[], Surroundings(None, map[], [], false))
  }

  /** What one Extension's operations see of the store. */
  function Project(s: Store, namespace: string): Namespace {
    Namespace(Lookup(s.resources, KeyIn(namespace, ShootMR)), Lookup(s.resources, KeyIn(namespace, SeedMR)),
              Lookup(s.records, KeyIn(namespace, SeedMR)), SideOf(s, namespace).objects, SideOf(s, namespace).around)
  }

  function Put<K, V>(m: map<K, V>, k: K, v: Option<V>): map<K, V> {
    if v.Some? then m[k := v.value] else m - {k}
  }

  function WithResource(s: Store, namespace: string, which: Which, mr: Option<ManagedResource>): Store {
    s.(resources := Put(s.resources, KeyIn(namespace, which), mr))
  }

  function WithRecord(s: Store, namespace: string, record: Option<Record>): Store {
    s.(records := Put(s.records, KeyIn(namespace, SeedMR), record))
  }

  /** The store after a namespace has changed to `ns`. */
  function Embed(s: Store, namespace: string, ns: Namespace): Store {
    WithRecord(WithResource(WithResource(s, namespace, ShootMR, ns.shootMR), namespace, SeedMR, ns.seedMR),
               namespace, ns.record)
      .(shoots := s.shoots[namespace := ShootSide(ns.objects, ns.around)])
  }

  lemma ProjectWithResource(s: Store, namespace: string, which: Which, mr: Option<ManagedResource>, other: string)
    ensures Project(WithResource(s, namespace, which, mr), other) ==
            if other == namespace then WithMR(Project(s, other), which, mr) else Project(s, other)
  {
    KeysDiffer(namespace, which, other, ShootMR);
    KeysDiffer(namespace, which, other, SeedMR);
  }

  lemma ProjectWithRecord(s: Store, namespace: string, record: Option<Record>, other: string)
    ensures Project(WithRecord(s, namespace, record), other) ==
            if other == namespace then Project(s, other).(record := record) else Project(s, other)
  {
    KeysDiffer(namespace, SeedMR, other, SeedMR);
  }

  lemma ProjectEmbed(s: Store, namespace: string, ns: Namespace, other: string)
    ensures Project(Embed(s, namespace, ns), other) == if other == namespace then ns else Project(s, other)
  {
    var s1 := WithResource(s, namespace, ShootMR, ns.shootMR);
    var s2 := WithResource(s1, namespace, SeedMR, ns.seedMR);
    ProjectWithResource(s, namespace, ShootMR, ns.shootMR, other);
    ProjectWithResource(s1, namespace, SeedMR, ns.seedMR, other);
    ProjectWithRecord(s2, namespace, ns.record, other);
  }

  // ---- runs over the shared store

  datatype Move = Move(namespace: string, turn: Turn)

  /** The turns of a run that concern one namespace. */
  function Mine(moves: seq<Move>, namespace: string): seq<Turn> {
    if moves == [] then []
    else
      var last := moves[|moves| - 1];
      Mine(moves[..|moves| - 1], namespace) + if last.namespace == namespace then [last.turn] else []
  }

  lemma {:induction false} MineAppend(a: seq<Move>, b: seq<Move>, namespace: string)
    ensures Mine(a + b, namespace) == Mine(a, namespace) + Mine(b, namespace)
    decreases |b|
  {
    if b == [] {
      assert a + b == a;
    } else {
      assert (a + b)[..|a + b| - 1] == a + b[..|b| - 1];
      MineAppend(a, b[..|b| - 1], namespace);
    }
  }

  /** The environment alone took the store from `s` to `t`. */
  ghost predicate Waited(s: Store, moves: seq<Move>, t: Store) {
    && (forall m :: m in moves ==> m.turn.Env?)
    && forall n {:trigger Mine(moves, n)} :: Project(t, n) == EnvironmentOnly(Project(s, n), Mine(moves, n))
  }

  /** Every namespace but one was left to the environment. */
  ghost predicate OthersWaited(s: Store, moves: seq<Move>, namespace: string, t: Store) {
    forall n {:trigger Mine(moves, n)} ::
      n != namespace ==> Project(t, n) == EnvironmentOnly(Project(s, n), Mine(moves, n))
  }

  /** Whichever program makes the call goes on as its machine does on this answer; a pending one stays where it is. */
  ghost predicate Answers(s: Store, moves: seq<Move>, namespace: string, call: Call, t: Store, answer: Response) {
    && OthersWaited(s, moves, namespace, t)
    && forall pc {:trigger Resume(pc, answer)} :: CallAt(pc) == call && !pc.Idle? ==>
         Run(Config(Project(s, namespace), pc), Mine(moves, namespace)) ==
         Config(Project(t, namespace), Resume(pc, answer))
  }

  /** A run took the operation on this namespace from one program counter to another. */
  ghost predicate Reached(s: Store, moves: seq<Move>, namespace: string, pc: Pc, t: Store, after: Pc) {
    && OthersWaited(s, moves, namespace, t)
    && Run(Config(Project(s, namespace), pc), Mine(moves, namespace)) == Config(Project(t, namespace), after)
  }

  lemma {:induction false} MineOfEnvironment(moves: seq<Move>, n: string)
    requires forall m :: m in moves ==> m.turn.Env?
    ensures forall t :: t in Mine(moves, n) ==> t.Env?
  {
    if moves != [] {
      assert moves[|moves| - 1] in moves;
      MineOfEnvironment(moves[..|moves| - 1], n);
    }
  }

  lemma OthersWaitedAppend(s: Store, a: seq<Move>, t: Store, b: seq<Move>, u: Store, namespace: string)
    requires OthersWaited(s, a, namespace, t) && OthersWaited(t, b, namespace, u)
    ensures OthersWaited(s, a + b, namespace, u)
  {
    forall n | n != namespace ensures Project(u, n) == EnvironmentOnly(Project(s, n), Mine(a + b, n)) {
      MineAppend(a, b, n);
      EnvironmentAppend(Project(s, n), Mine(a, n), Mine(b, n));
    }
  }

  lemma WaitOne(s: Store, moves: seq<Move>, t: Store, m: Move)
    requires Waited(s, moves, t) && m.turn.Env?
    ensures Waited(s, moves + [m], Embed(t, m.namespace, EnvStep(Project(t, m.namespace), m.turn.e)))
  {
    var u := Embed(t, m.namespace, EnvStep(Project(t, m.namespace), m.turn.e));
    forall n ensures Project(u, n) == EnvironmentOnly(Project(s, n), Mine(moves + [m], n)) {
      ProjectEmbed(t, m.namespace, EnvStep(Project(t, m.namespace), m.turn.e), n);
      assert (moves + [m])[..|moves|] == moves;
      EnvironmentAppend(Project(s, n), Mine(moves, n), if m.namespace == n then [m.turn] else []);
    }
  }

  /** A call on what the environment left behind, performed as the API server performs it. */
  lemma Committed(s: Store, moves: seq<Move>, mid: Store, namespace: string, call: Call, r: Reply, t: Store,
                  answer: Response)
    requires Waited(s, moves, mid)
    requires (Project(t, namespace), answer) == Perform(call, Project(mid, namespace), r)
    requires forall n :: n != namespace ==> Project(t, n) == Project(mid, n)
    ensures Answers(s, moves + [Move(namespace, Answer(r))], namespace, call, t, answer)
  {
    var all := moves + [Move(namespace, Answer(r))];
    assert all[..|moves|] == moves;
    forall n | n != namespace ensures Project(t, n) == EnvironmentOnly(Project(s, n), Mine(all, n)) {
      assert Mine(all, n) == Mine(moves, n);
    }
    var mine := Mine(moves, namespace);
    MineOfEnvironment(moves, namespace);
    assert Mine(all, namespace) == mine + [Answer(r)];
    forall pc | CallAt(pc) == call && !pc.Idle?
      ensures Run(Config(Project(s, namespace), pc), mine + [Answer(r)]) ==
              Config(Project(t, namespace), Resume(pc, answer))
    {
      EnvironmentTurnsOnly(Project(s, namespace), pc, mine);
      RunAppend(Config(Project(s, namespace), pc), mine, [Answer(r)]);
      RunStep(Config(Project(mid, namespace), pc), Answer(r), []);
    }
  }

  /** After any number of pending answers, an answer is an answer. */
  lemma AnswersAfterPending(s: Store, a: seq<Move>, t: Store, b: seq<Move>, u: Store, namespace: string, call: Call,
                            answer: Response)
    requires Answers(s, a, namespace, call, t, Pending) && Answers(t, b, namespace, call, u, answer)
    ensures Answers(s, a + b, namespace, call, u, answer)
  {
    OthersWaitedAppend(s, a, t, b, u, namespace);
    MineAppend(a, b, namespace);
    forall pc | CallAt(pc) == call && !pc.Idle?
      ensures Run(Config(Project(s, namespace), pc), Mine(a + b, namespace)) ==
              Config(Project(u, namespace), Resume(pc, answer))
    {
      assert Resume(pc, Pending) == pc;
      RunAppend(Config(Project(s, namespace), pc), Mine(a, namespace), Mine(b, namespace));
    }
  }

  lemma ReachedAppend(s: Store, a: seq<Move>, t: Store, b: seq<Move>, u: Store, namespace: string, p: Pc, q: Pc, r: Pc)
    requires Reached(s, a, namespace, p, t, q) && Reached(t, b, namespace, q, u, r)
    ensures Reached(s, a + b, namespace, p, u, r)
  {
    OthersWaitedAppend(s, a, t, b, u, namespace);
    MineAppend(a, b, namespace);
    RunAppend(Config(Project(s, namespace), p), Mine(a, namespace), Mine(b, namespace));
  }

  // ---- the client

  /** What a call did: the trace grew by a run that answers it. */
  ghost predicate Replied(s: Store, before: seq<Move>, namespace: string, call: Call, t: Store, after: seq<Move>,
                          answer: Response)
  {
    before <= after && Answers(s, after[|before|..], namespace, call, t, answer)
  }

  /**
   The client of the extension. `script` says what the environment will do and how the calls will fare; once it is
   exhausted the context is cancelled and every call fails. `trace` records what has happened.
   */
  class Client {
    var store: Store
    var script: seq<Move>
    ghost var trace: seq<Move>

    constructor (store: Store, script: seq<Move>)
      ensures this.store == store && this.script == script && trace == []
    {
      this.store := store;
      this.script := script;
      trace := [];
    }

    /** Lets the environment act until the call at hand gets its reply. */
    method Await(namespace: string) returns (r: Reply)
      modifies this
      ensures old(trace) < trace && trace[|trace| - 1] == Move(namespace, Answer(r))
      ensures Waited(old(store), trace[|old(trace)|..|trace| - 1], store)
      ensures |script| <= |old(script)| && (r != Err ==> |script| < |old(script)|)
    {
      ghost var moves: seq<Move> := [];
      while script != []
        invariant trace == old(trace) + moves && Waited(old(store), moves, store)
        invariant |script| <= |old(script)|
        decreases |script|
      {
        var m := script[0];
        script := script[1..];
        if m.turn.Env? {
          WaitOne(old(store), moves, store, m);
          store := Embed(store, m.namespace, EnvStep(Project(store, m.namespace), m.turn.e));
          moves := moves + [m];
          trace := trace + [m];
        } else if m.turn.Answer? && m.namespace == namespace {
          trace := trace + [m];
          assert trace[|old(trace)|..|trace| - 1] == moves;
          return m.turn.r;
        }
      }
      trace := trace + [Move(namespace, Answer(Err))];
      assert trace[|old(trace)|..|trace| - 1] == moves;
      return Err;
    }

    method GetCluster(namespace: string) returns (answer: Response)
      modifies this
      ensures Replied(old(store), old(trace), namespace, Call.GetCluster, store, trace, answer)
      ensures !answer.Pending?
    {
      var r := Await(namespace);
      ghost var mid := store;
      var shoot := SideOf(store, namespace).around.shoot;
      answer := if r != Ok then Failed else if shoot.Some? then GotShoot(shoot.value) else NotFound;
      Commit(old(store), old(trace), mid, namespace, Call.GetCluster, r, store, trace, answer);
    }

    method CreateForShoot(namespace: string, content: Content) returns (answer: Response)
      modifies this
      ensures Replied(old(store), old(trace), namespace, Call.CreateForShoot(content), store, trace, answer)
      ensures !answer.Pending?
    {
      var r := Await(namespace);
      ghost var mid := store;
      answer := if r == Ok then Done else Failed;
      if r != Err {
        Upsert(namespace, ShootMR, content);
      }
      Commit(old(store), old(trace), mid, namespace, Call.CreateForShoot(content), r, store, trace, answer);
    }

    method CreateForSeed(namespace: string, spec: DnsSpec) returns (answer: Response)
      modifies this
      ensures Replied(old(store), old(trace), namespace, Call.CreateForSeed(spec), store, trace, answer)
      ensures !answer.Pending?
    {
      var r := Await(namespace);
      ghost var mid := store;
      answer := if r == Ok then Done else Failed;
      if r != Err {
        Upsert(namespace, SeedMR, map[OwnRecord := DnsRecordManifest(spec)]);
      }
      Commit(old(store), old(trace), mid, namespace, Call.CreateForSeed(spec), r, store, trace, answer);
    }

    method Upsert(namespace: string, which: Which, content: Content)
      modifies this`store
      ensures store == WithResource(old(store), namespace, which,
                                    Upserted(MRof(Project(old(store), namespace), which), content))
      ensures forall n :: Project(store, n) ==
                if n == namespace then
                  WithMR(Project(old(store), n), which, Upserted(MRof(Project(old(store), n), which), content))
                else Project(old(store), n)
    {
      var key := KeyIn(namespace, which);
      var mr := if key in store.resources then store.resources[key].(content := content, keepObjects := false)
                else ManagedResource(content, {}, false, false);
      store := store.(resources := store.resources[key := mr]);
      forall n {
        ProjectWithResource(old(store), namespace, which, Some(mr), n);
      }
    }

    method GetExternalRecord(namespace: string, name: string) returns (answer: Response)
      modifies this
      ensures Replied(old(store), old(trace), namespace, Call.GetExternalRecord(name), store, trace, answer)
      ensures !answer.Pending?
    {
      var r := Await(namespace);
      ghost var mid := store;
      var externals := SideOf(store, namespace).around.externals;
      answer := if r != Ok then Failed else if name in externals then GotRef(externals[name]) else NotFound;
      Commit(old(store), old(trace), mid, namespace, Call.GetExternalRecord(name), r, store, trace, answer);
    }

    method NewShootClient(namespace: string) returns (answer: Response)
      modifies this
      ensures Replied(old(store), old(trace), namespace, Call.NewShootClient, store, trace, answer)
      ensures !answer.Pending?
    {
      var r := Await(namespace);
      ghost var mid := store;
      answer := if r == Ok then Done else Failed;
      Commit(old(store), old(trace), mid, namespace, Call.NewShootClient, r, store, trace, answer);
    }

    method GetService(namespace: string) returns (answer: Response)
      modifies this
      ensures Replied(old(store), old(trace), namespace, Call.GetService, store, trace, answer)
      ensures !answer.Pending?
    {
      var r := Await(namespace);
      ghost var mid := store;
      var side := SideOf(store, namespace);
      answer := if r != Ok || !side.around.reachable then Failed
      else if SERVICE_KEY in side.objects then GotService(side.around.loadBalancer) else NotFound;
      Commit(old(store), old(trace), mid, namespace, Call.GetService, r, store, trace, answer);
    }

    method SetKeepObjects(namespace: string, which: Which) returns (answer: Response)
      modifies this
      ensures Replied(old(store), old(trace), namespace, Call.SetKeepObjects(which), store, trace, answer)
      ensures !answer.Pending?
    {
      var r := Await(namespace);
      ghost var mid := store;
      var key := KeyIn(namespace, which);
      if r == Err {
        answer := Failed;
      } else if key !in store.resources {
        answer := if r == Lost then Failed else NotFound;
      } else {
        var mr := store.resources[key].(keepObjects := true);
        store := store.(resources := store.resources[key := mr]);
        forall n {
          ProjectWithResource(mid, namespace, which, Some(mr), n);
        }
        answer := if r == Lost then Failed else Done;
      }
      Commit(old(store), old(trace), mid, namespace, Call.SetKeepObjects(which), r, store, trace, answer);
    }

    method DeleteResource(namespace: string, which: Which) returns (answer: Response)
      modifies this
      ensures Replied(old(store), old(trace), namespace, Call.DeleteMR(which), store, trace, answer)
      ensures !answer.Pending?
    {
      var r := Await(namespace);
      ghost var mid := store;
      var key := KeyIn(namespace, which);
      if r == Err {
        answer := Failed;
      } else if key !in store.resources {
        answer := if r == Lost then Failed else Done;
      } else {
        var mr := store.resources[key].(terminating := true);
        store := store.(resources := store.resources[key := mr]);
        forall n {
          ProjectWithResource(mid, namespace, which, Some(mr), n);
        }
        answer := if r == Lost then Failed else Done;
      }
      Commit(old(store), old(trace), mid, namespace, Call.DeleteMR(which), r, store, trace, answer);
    }

    /** Polls until the resource is gone; running out of time or replies fails the wait. */
    method WaitUntilDeleted(namespace: string, which: Which) returns (answer: Response)
      modifies this
      ensures Replied(old(store), old(trace), namespace, Call.PollDeleted(which), store, trace, answer)
      ensures answer.Done? || answer.Failed?
    {
      while true
        invariant Replied(old(store), old(trace), namespace, Call.PollDeleted(which), store, trace, Pending)
        decreases |script|
      {
        ghost var before, soFar := store, trace;
        answer := Poll(namespace, which);
        RepliedAfterPending(old(store), old(trace), before, soFar, store, trace, namespace,
                            Call.PollDeleted(which), answer);
        if !answer.Pending? {
          return;
        }
      }
    }

    method Poll(namespace: string, which: Which) returns (answer: Response)
      modifies this
      ensures Replied(old(store), old(trace), namespace, Call.PollDeleted(which), store, trace, answer)
      ensures answer.Done? || answer.Failed? || answer.Pending?
      ensures answer.Pending? ==> |script| < |old(script)|
    {
      var r := Await(namespace);
      answer := if r != Ok then Failed else if KeyIn(namespace, which) in store.resources then Pending else Done;
      Commit(old(store), old(trace), store, namespace, Call.PollDeleted(which), r, store, trace, answer);
    }

    method GetRecord(namespace: string) returns (answer: Response)
      modifies this
      ensures Replied(old(store), old(trace), namespace, Call.GetRecord, store, trace, answer)
      ensures !answer.Pending?
    {
      var r := Await(namespace);
      ghost var mid := store;
      var key := KeyIn(namespace, SeedMR);
      answer := if r != Ok then Failed else if key in store.records then GotRecord(store.records[key]) else NotFound;
      Commit(old(store), old(trace), mid, namespace, Call.GetRecord, r, store, trace, answer);
    }

    /** A merge patch: only what differs between the two copies is sent. */
    method PatchRecord(namespace: string, base: Record, desired: Record) returns (answer: Response)
      modifies this
      ensures Replied(old(store), old(trace), namespace, Call.PatchRecord(base, desired), store, trace, answer)
      ensures !answer.Pending?
    {
      var r := Await(namespace);
      ghost var mid := store;
      var key := KeyIn(namespace, SeedMR);
      if r == Err {
        answer := Failed;
      } else if key !in store.records {
        answer := if r == Lost then Failed else NotFound;
      } else {
        if base.confirmed != desired.confirmed {
          SetRecord(namespace, store.records[key].(confirmed := desired.confirmed));
        }
        answer := if r == Lost then Failed else Done;
      }
      Commit(old(store), old(trace), mid, namespace, Call.PatchRecord(base, desired), r, store, trace, answer);
    }

    method DeleteRecord(namespace: string) returns (answer: Response)
      modifies this
      ensures Replied(old(store), old(trace), namespace, Call.DeleteRecord, store, trace, answer)
      ensures !answer.Pending?
    {
      var r := Await(namespace);
      ghost var mid := store;
      var key := KeyIn(namespace, SeedMR);
      if r == Err {
        answer := Failed;
      } else if key !in store.records {
        answer := if r == Lost then Failed else NotFound;
      } else if !store.records[key].confirmed {
        answer := Failed;
      } else {
        SetRecord(namespace, store.records[key].(terminating := true));
        answer := if r == Lost then Failed else Done;
      }
      Commit(old(store), old(trace), mid, namespace, Call.DeleteRecord, r, store, trace, answer);
    }

    method SetRecord(namespace: string, record: Record)
      modifies this`store
      ensures forall n :: Project(store, n) ==
                if n == namespace then Project(old(store), n).(record := Some(record)) else Project(old(store), n)
    {
      store := store.(records := store.records[KeyIn(namespace, SeedMR) := record]);
      forall n {
        ProjectWithRecord(old(store), namespace, Some(record), n);
      }
    }
  }

  /** The last step of every client method. */
  lemma Commit(s: Store, before: seq<Move>, mid: Store, namespace: string, call: Call, r: Reply, t: Store,
               after: seq<Move>, answer: Response)
    requires before < after && after[|after| - 1] == Move(namespace, Answer(r))
    requires Waited(s, after[|before|..|after| - 1], mid)
    requires (Project(t, namespace), answer) == Perform(call, Project(mid, namespace), r)
    requires forall n :: n != namespace ==> Project(t, n) == Project(mid, n)
    ensures Replied(s, before, namespace, call, t, after, answer)
  {
    var moves := after[|before|..|after| - 1];
    assert after[|before|..] == moves + [Move(namespace, Answer(r))];
    Committed(s, moves, mid, namespace, call, r, t, answer);
  }

  lemma RepliedAfterPending(s: Store, t0: seq<Move>, t: Store, t1: seq<Move>, u: Store, t2: seq<Move>,
                            namespace: string, call: Call, answer: Response)
    requires Replied(s, t0, namespace, call, t, t1, Pending) && Replied(t, t1, namespace, call, u, t2, answer)
    ensures Replied(s, t0, namespace, call, u, t2, answer)
  {
    assert t2[|t0|..] == t1[|t0|..] + t2[|t1|..];
    AnswersAfterPending(s, t1[|t0|..], t, t2[|t1|..], u, namespace, call, answer);
  }
}
