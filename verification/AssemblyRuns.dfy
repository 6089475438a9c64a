/**
 Runs of nodes with all their tasks. Every such run is a run of HotStuffProtocol: that looped back blocks
 were suspended and have their payload is a consequence here, and no waiter is forgotten.
 */
module AssemblyRuns {
  import opened Committees
  import opened Messages
  import opened Mempools
  import opened HotStuffSafety
  import opened HotStuffNode
  import opened HotStuffInvariant
  import Protocol = HotStuffProtocol
  import opened Stores
  import opened Synchronizers
  import opened NodeAssembly

  type Assemblies = map<PublicKey, Assembly>

  function NodesOf(g: Assemblies): Protocol.Nodes {
    map h | h in g :: g[h].node
  }

  /** At first the store holds what the boot wrote, and only the node's own proposal is under way. */
  ghost predicate Booted(cfg: Config, h: PublicKey, a: Assembly) {
    && Protocol.Booted(cfg, h, a.node)
    && WritesOf(a.history, a.node.(blocks := map[], mempool := Mempool([], {})), a.node)
    && a.parents == NO_PARENTS_AWAITED && a.payloads == NO_PAYLOAD_AWAITED
    && a.toCore == ToCore(a.node.suspensions)
  }

  ghost predicate Init(cfg: Config, g: Assemblies) {
    HonestMajority(cfg.committee, g.Keys) && forall h :: h in g ==> Booted(cfg, h, g[h])
  }

  ghost predicate StepBy(cfg: Config, g: Assemblies, g': Assemblies, h: PublicKey, move: Move) {
    && h in g
    && Enabled(cfg, Protocol.WorldOf(NodesOf(g)), g[h], move)
    && g' == g[h := Moved(cfg, g[h], move)]
  }

  ghost predicate Step(cfg: Config, g: Assemblies, g': Assemblies) {
    exists h, move :: StepBy(cfg, g, g', h, move)
  }

  ghost predicate Run(cfg: Config, run: seq<Assemblies>) {
    && run != []
    && Init(cfg, run[0])
    && forall i :: 0 <= i < |run| - 1 ==> Step(cfg, run[i], run[i + 1])
  }

  ghost predicate AllOk(cfg: Config, g: Assemblies) {
    Protocol.Inv(cfg, NodesOf(g)) && forall h :: h in g ==> AssemblyOk(g[h])
  }

  // Steps

  lemma BootedMatches(a: Assembly)
    requires WritesOf(a.history, a.node.(blocks := map[], mempool := Mempool([], {})), a.node)
    ensures StoreMatches(a.node, a.history)
  {
    forall key ensures key in ExecuteAll(a.history).db <==> InStore(a.node, key) {
      StoredIsWritten(a.history, key);
    }
  }

  lemma BootedQueueIsReady(cfg: Config, h: PublicKey, s: NodeState)
    requires Protocol.Booted(cfg, h, s)
    ensures AllReady(s, ToCore(s.suspensions))
  {
    var boycott, made :| s == Boot(cfg, h, boycott, made);
    SuspensionsSplit(s.suspensions);
    forall b | b in ToCore(s.suspensions) ensures Ready(s, b) {
      BootInOrder(cfg, h, boycott, made, OwnProposal(b));
    }
  }

  lemma BootedIsOk(cfg: Config, h: PublicKey, a: Assembly)
    requires Booted(cfg, h, a)
    ensures AssemblyOk(a)
  {
    BootedMatches(a);
    BootedQueueIsReady(cfg, h, a.node);
  }

  lemma InitIsOk(cfg: Config, g: Assemblies)
    requires Init(cfg, g)
    ensures AllOk(cfg, g) && Protocol.Init(cfg, NodesOf(g))
  {
    assert NodesOf(g).Keys == g.Keys;
    Protocol.InitMakesInv(cfg, NodesOf(g));
    forall h | h in g ensures AssemblyOk(g[h]) {
      BootedIsOk(cfg, h, g[h]);
    }
  }

  /** What the tasks loop back is possible for the protocol. */
  lemma ReactionIsPossible(cfg: Config, w: World, a: Assembly, x: Stimulus, writes: seq<Command>)
    requires AssemblyOk(a) && Enabled(cfg, w, a, CoreReacts(x, writes))
    ensures Protocol.Possible(w, a.node, x.event)
  {
    assert x.event.LoopBack? ==> Ready(a.node, x.event.block);
  }

  lemma NodesAfter(g: Assemblies, h: PublicKey, a: Assembly)
    requires h in g
    ensures NodesOf(g[h := a]) == NodesOf(g)[h := a.node]
  {
  }

  lemma ReactionIsStep(cfg: Config, nodes: Protocol.Nodes, h: PublicKey, x: Stimulus)
    requires h in nodes && Protocol.Possible(Protocol.WorldOf(nodes), nodes[h], x.event)
    ensures Protocol.Step(cfg, nodes, nodes[h := React(cfg, nodes[h], x)])
  {
    assert Protocol.StepBy(cfg, nodes, nodes[h := React(cfg, nodes[h], x)], h, x);
  }

  lemma OnlyReactionsMoveNodes(cfg: Config, a: Assembly, move: Move)
    requires move.ParentReceived? ==> a.parents.inbox != []
    requires move.PayloadReceived? ==> a.payloads.inbox != []
    ensures Moved(cfg, a, move).node == if move.CoreReacts? then React(cfg, a.node, move.x) else a.node
  {
  }

  /** A move of an assembled node is a step of the protocol, perhaps one in which nothing happens. */
  lemma StepIsStep(cfg: Config, g: Assemblies, g': Assemblies, h: PublicKey, move: Move)
    requires HonestMajority(cfg.committee, NodesOf(g).Keys)
    requires StepBy(cfg, g, g', h, move) && AssemblyOk(g[h])
    ensures Protocol.Step(cfg, NodesOf(g), NodesOf(g'))
  {
    NodesAfter(g, h, Moved(cfg, g[h], move));
    OnlyReactionsMoveNodes(cfg, g[h], move);
    if move.CoreReacts? {
      ReactionIsPossible(cfg, Protocol.WorldOf(NodesOf(g)), g[h], move.x, move.writes);
      ReactionIsStep(cfg, NodesOf(g), h, move.x);
    } else {
      assert NodesOf(g') == NodesOf(g);
      Protocol.IdleStep(cfg, NodesOf(g));
    }
  }

  lemma QueueIsStored(cfg: Config, g: Assemblies, h: PublicKey)
    requires Protocol.Inv(cfg, NodesOf(g)) && h in g
    ensures MempoolOk(g[h].node.mempool)
  {
    assert NodeInv(cfg.committee, Protocol.WorldOf(NodesOf(g)), NodesOf(g)[h]);
  }

  lemma StepKeepsOk(cfg: Config, g: Assemblies, g': Assemblies, h: PublicKey, move: Move)
    requires AllOk(cfg, g) && StepBy(cfg, g, g', h, move)
    ensures AllOk(cfg, g')
  {
    QueueIsStored(cfg, g, h);
    StepIsStep(cfg, g, g', h, move);
    Protocol.AnyStepKeepsInv(cfg, NodesOf(g), NodesOf(g'));
    TasksKeepOk(cfg, g, g', h, move);
  }

  lemma TasksKeepOk(cfg: Config, g: Assemblies, g': Assemblies, h: PublicKey, move: Move)
    requires StepBy(cfg, g, g', h, move) && MempoolOk(g[h].node.mempool)
    requires forall k :: k in g ==> AssemblyOk(g[k])
    ensures forall k :: k in g' ==> AssemblyOk(g'[k])
  {
    MoveKeepsOk(cfg, Protocol.WorldOf(NodesOf(g)), g[h], move);
  }

  // Runs

  lemma {:induction false} RunKeepsOk(cfg: Config, run: seq<Assemblies>, i: nat)
    requires Run(cfg, run) && i < |run|
    ensures AllOk(cfg, run[i])
  {
    if i == 0 {
      InitIsOk(cfg, run[0]);
    } else {
      RunKeepsOk(cfg, run, i - 1);
      assert Step(cfg, run[i - 1], run[i - 1 + 1]);
      var h, move :| StepBy(cfg, run[i - 1], run[i], h, move);
      StepKeepsOk(cfg, run[i - 1], run[i], h, move);
    }
  }

  /** Every run of assembled nodes is a run of the protocol, with all that is proved about these. */
  lemma AssembledRun(cfg: Config, run: seq<Assemblies>)
    requires Run(cfg, run)
    ensures Protocol.Run(cfg, seq(|run|, i requires 0 <= i < |run| => NodesOf(run[i])))
  {
    var nodes := seq(|run|, i requires 0 <= i < |run| => NodesOf(run[i]));
    InitIsOk(cfg, run[0]);
    forall i | 0 <= i < |nodes| - 1 ensures Protocol.Step(cfg, nodes[i], nodes[i + 1]) {
      RunKeepsOk(cfg, run, i);
      assert Step(cfg, run[i], run[i + 1]);
      var h, move :| StepBy(cfg, run[i], run[i + 1], h, move);
      StepIsStep(cfg, run[i], run[i + 1], h, move);
    }
  }

  lemma AssembledNodesStay(cfg: Config, run: seq<Assemblies>, h: PublicKey, n: nat)
    requires Run(cfg, run) && n < |run| && h in run[0]
    ensures h in run[n]
  {
    AssembledRun(cfg, run);
    Protocol.RunOnlyAdvances(cfg, seq(|run|, i requires 0 <= i < |run| => NodesOf(run[i])), 0, n, h);
  }

  /** Agreement for nodes with all their tasks, without any assumption on what is looped back. */
  lemma AssembledAgreement(cfg: Config, run: seq<Assemblies>, i: nat, j: nat, h: PublicKey, k: PublicKey,
                           cm: Commit, cm': Commit)
    requires Run(cfg, run) && i < |run| && j < |run|
    requires h in run[i] && cm in run[i][h].node.commits
    requires k in run[j] && cm' in run[j][k].node.commits
    ensures Extends(Position(cm.b0), Position(cm'.b0)) || Extends(Position(cm'.b0), Position(cm.b0))
  {
    AssembledRun(cfg, run);
    var nodes := seq(|run|, t requires 0 <= t < |run| => NodesOf(run[t]));
    Protocol.Agreement(cfg, nodes, i, j, h, k, cm, cm');
  }

  /** A block on its way back to the core was suspended, and its whole payload is stored. */
  lemma LoopedBackIsReady(cfg: Config, run: seq<Assemblies>, i: nat, h: PublicKey, b: Block)
    requires Run(cfg, run) && i < |run| && h in run[i] && b in run[i][h].toCore
    ensures IsSuspended(run[i][h].node, b)
    ensures forall p :: p in b.payload ==> PayloadKey(p) in ExecuteAll(run[i][h].history).db
  {
    RunKeepsOk(cfg, run, i);
    var a := run[i][h];
    forall p | p in b.payload ensures PayloadKey(p) in ExecuteAll(a.history).db {
      assert Ready(a.node, b) && InStore(a.node, PayloadKey(p));
    }
  }

  /**
   The waiter for a parent is answered exactly if it asked and the parent is stored; so a block that it
   loops back has its parent, and one whose parent is stored does not wait in vain.
   */
  lemma ParentWaiterIsAnswered(cfg: Config, run: seq<Assemblies>, i: nat, h: PublicKey, pw: ParentWaiter)
    requires Run(cfg, run) && i < |run| && h in run[i] && pw in run[i][h].parents.waiting
    ensures Enabled(cfg, Protocol.WorldOf(NodesOf(run[i])), run[i][h], ParentResumed(pw)) <==>
            (NotifyRead(BlockKey(pw.block.qc.hash), ParentReader(pw.id)) in run[i][h].history
             && pw.block.qc.hash in run[i][h].node.blocks)
  {
    RunKeepsOk(cfg, run, i);
    var a, key := run[i][h], BlockKey(pw.block.qc.hash);
    RepliedIffAskedAndStored(a.history, key, ParentReader(pw.id));
    assert key in ExecuteAll(a.history).db <==> InStore(a.node, key);
  }

  /** The same for a waiter for payload, which has to be answered for all that was missing. */
  lemma PayloadWaiterIsAnswered(cfg: Config, run: seq<Assemblies>, i: nat, h: PublicKey, w: Waiter)
    requires Run(cfg, run) && i < |run| && h in run[i] && w in run[i][h].payloads.waiting
    ensures Enabled(cfg, Protocol.WorldOf(NodesOf(run[i])), run[i][h], PayloadResumed(w)) <==>
            ((forall p :: p in w.missing ==> NotifyRead(PayloadKey(p), PayloadReader(w.id)) in run[i][h].history)
             && HasPayload(run[i][h].node, w.block))
  {
    RunKeepsOk(cfg, run, i);
    var a := run[i][h];
    forall p ensures HasReply(ExecuteAll(a.history), PayloadKey(p), PayloadReader(w.id)) <==>
                     NotifyRead(PayloadKey(p), PayloadReader(w.id)) in a.history && p in a.node.mempool.stored
    {
      RepliedIffAskedAndStored(a.history, PayloadKey(p), PayloadReader(w.id));
      assert PayloadKey(p) in ExecuteAll(a.history).db <==> InStore(a.node, PayloadKey(p));
    }
    assert Awaited(a.node, w.missing, w.block);
  }

  /** Every pending block has a waiter that nobody cancelled. */
  lemma PendingIsAwaited(cfg: Config, run: seq<Assemblies>, i: nat, h: PublicKey, d: Digest)
    requires Run(cfg, run) && i < |run| && h in run[i]
    ensures d in run[i][h].parents.pending ==> exists pw :: pw in run[i][h].parents.waiting && pw.block.Digest() == d
    ensures d in run[i][h].payloads.pending ==> HasLiveWaiter(run[i][h].payloads, d)
    ensures forall pw :: pw in run[i][h].parents.waiting ==>
      pw.block.qc.hash in run[i][h].parents.requests || pw.block.qc.hash in run[i][h].node.blocks
  {
    RunKeepsOk(cfg, run, i);
    assert AssemblyOk(run[i][h]);
  }
}
