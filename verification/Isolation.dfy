/** Extensions of different shoots run concurrently on one seed and do not influence one another. */
module Isolation {
  import opened Lifecycle
  import opened Api

  /** One store, and at most one operation in flight per namespace. */
  datatype World = World(store: Store, pcs: map<string, Pc>)

  function View(w: World, namespace: string): Config {
    Config(Project(w.store, namespace), if namespace in w.pcs then w.pcs[namespace] else Idle(NeverRan))
  }

  function WorldStep(w: World, m: Move): World {
    var c := Step(View(w, m.namespace), m.turn);
    World(Embed(w.store, m.namespace, c.ns), w.pcs[m.namespace := c.pc])
  }

  function WorldRun(w: World, moves: seq<Move>): World
    decreases |moves|
  {
    if moves == [] then w else WorldRun(WorldStep(w, moves[0]), moves[1..])
  }

  lemma ViewAfterStep(w: World, m: Move, namespace: string)
    ensures View(WorldStep(w, m), namespace) ==
            if namespace == m.namespace then Step(View(w, namespace), m.turn) else View(w, namespace)
  {
    ProjectEmbed(w.store, m.namespace, Step(View(w, m.namespace), m.turn).ns, namespace);
  }

  /**
   Cluster isolation: any interleaving of operations, failures and environment steps on any namespaces, seen from one
   of them, is the run of its own turns alone, with the same outcomes and the same final state.
   */
  lemma {:induction false} InterleavingsProject(w: World, moves: seq<Move>, namespace: string)
    ensures View(WorldRun(w, moves), namespace) == Run(View(w, namespace), Mine(moves, namespace))
    decreases |moves|
  {
    if moves != [] {
      var m := moves[0];
      assert moves == [m] + moves[1..];
      MineAppend([m], moves[1..], namespace);
      assert [m][..0] == [];
      assert Mine([m], namespace) == if m.namespace == namespace then [m.turn] else [];
      ViewAfterStep(w, m, namespace);
      InterleavingsProject(WorldStep(w, m), moves[1..], namespace);
      if m.namespace == namespace {
        RunStep(View(w, namespace), m.turn, Mine(moves[1..], namespace));
      } else {
        assert Mine(moves, namespace) == Mine(moves[1..], namespace);
      }
    }
  }
}
