/**
 The end-to-end theorem for nodes with all their tasks: core, store, synchronizers and a member of the
 checkpoint gadget on top.
 */
module WholeSystem {
  import opened Committees
  import opened HotStuffNode
  import Gadget = CheckpointGadget
  import opened EndToEnd
  import Tasks = AssemblyRuns
  import Protocol = HotStuffProtocol

  datatype Whole = Whole(nodes: Tasks.Assemblies, gadget: Gadget.System)

  function JointOf(x: Whole): Joint {
    Joint(Tasks.NodesOf(x.nodes), x.gadget)
  }

  /** A task of a node moves, and with it may deliver more. */
  ghost predicate TaskMoves(env: Setting, a: Whole, b: Whole) {
    && Tasks.Step(env.cfg, a.nodes, b.nodes)
    && b.gadget.members == a.gadget.members
    && IsLongest(env.lookup, Tasks.NodesOf(b.nodes), b.gadget.ledger)
    && NewEntriesGenuine(a.gadget, b.gadget.ledger)
  }

  ghost predicate WholeStep(env: Setting, a: Whole, b: Whole) {
    TaskMoves(env, a, b) || (b.nodes == a.nodes && MemberMoves(env.gadget, JointOf(a), JointOf(b)))
  }

  ghost predicate WholeRun(env: Setting, run: seq<Whole>) {
    && run != []
    && Tasks.Init(env.cfg, run[0].nodes) && Gadget.Init(env.gadget, run[0].gadget)
    && forall i :: 0 < i < |run| ==> WholeStep(env, run[i - 1], run[i])
  }

  function JointsOf(run: seq<Whole>): seq<Joint> {
    seq(|run|, i requires 0 <= i < |run| => JointOf(run[i]))
  }

  lemma TaskMoveIsStep(cfg: Config, g: Tasks.Assemblies, g': Tasks.Assemblies)
    requires Tasks.AllOk(cfg, g) && Tasks.Step(cfg, g, g')
    ensures Tasks.AllOk(cfg, g') && Protocol.Step(cfg, Tasks.NodesOf(g), Tasks.NodesOf(g'))
  {
    var h, move :| Tasks.StepBy(cfg, g, g', h, move);
    Tasks.StepKeepsOk(cfg, g, g', h, move);
    Tasks.StepIsStep(cfg, g, g', h, move);
  }

  lemma WholeStepIsJointStep(env: Setting, a: Whole, b: Whole)
    requires Tasks.AllOk(env.cfg, a.nodes) && WholeStep(env, a, b)
    ensures Tasks.AllOk(env.cfg, b.nodes) && JointStep(env, JointOf(a), JointOf(b))
  {
    if TaskMoves(env, a, b) {
      TaskMoveIsStep(env.cfg, a.nodes, b.nodes);
      assert Delivery(env.cfg, env.lookup, JointOf(a), JointOf(b));
    }
  }

  lemma {:induction false} WholeRunKeepsOk(env: Setting, run: seq<Whole>, i: nat)
    requires WholeRun(env, run) && i < |run|
    ensures Tasks.AllOk(env.cfg, run[i].nodes)
  {
    if i == 0 {
      Tasks.InitIsOk(env.cfg, run[0].nodes);
    } else {
      WholeRunKeepsOk(env, run, i - 1);
      assert WholeStep(env, run[i - 1], run[i]);
      WholeStepIsJointStep(env, run[i - 1], run[i]);
    }
  }

  /** Every run of the whole system is a joint run of consensus and gadget. */
  lemma WholeRunIsJointRun(env: Setting, run: seq<Whole>)
    requires WholeRun(env, run)
    ensures JointRun(env, JointsOf(run))
  {
    var joints := JointsOf(run);
    Tasks.InitIsOk(env.cfg, run[0].nodes);
    forall i | 0 <= i < |joints| - 1 ensures JointStep(env, joints[i], joints[i + 1]) {
      StepOfWholeRun(env, run, i);
    }
  }

  lemma StepOfWholeRun(env: Setting, run: seq<Whole>, i: nat)
    requires WholeRun(env, run) && i + 1 < |run|
    ensures JointStep(env, JointOf(run[i]), JointOf(run[i + 1]))
  {
    WholeRunKeepsOk(env, run, i);
    assert WholeStep(env, run[i + 1 - 1], run[i + 1]);
    WholeStepIsJointStep(env, run[i], run[i + 1]);
  }

  /** All honest nodes of the whole system extract the same checkpoints, and these form a chain. */
  lemma WholeSystemAgrees(env: Setting, run: seq<Whole>, i: nat, j: nat, h: PublicKey, k: PublicKey, m: nat, n: nat)
    requires WholeRun(env, run) && i < |run| && j < |run|
    requires h in run[i].nodes && m <= |run[i].nodes[h].node.commits|
    requires k in run[j].nodes && n <= |run[j].nodes[k].node.commits|
    ensures Consistent(Extracted(env, run[i].nodes[h].node, m), Extracted(env, run[j].nodes[k].node, n))
  {
    WholeRunIsJointRun(env, run);
    CheckpointsAgreeAndFormChain(env, JointsOf(run), i, j, h, k, m, n);
  }
}
