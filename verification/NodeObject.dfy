/**
 A node's objects put together: the core and its tasks. Every turn moves them exactly as NodeAssembly says.
 */
module NodeObject {
  import opened Wrappers
  import opened Committees
  import opened Messages
  import opened HotStuffSafety
  import opened HotStuffNode
  import opened HotStuffCore
  import opened Stores
  import opened Synchronizers
  import opened SynchronizerTasks
  import opened NodeAssembly

  function Assembled(node: NodeState, tasks: TaskState): Assembly {
    Assembly(node, tasks.history, tasks.parents, tasks.payloads, tasks.toCore)
  }

  class NodeWithTasks {
    const core: Core
    const tasks: Tasks

    /** The core shares no object with the tasks. */
    ghost predicate Valid()
      reads core, core.aggregator, core.mempool, tasks, tasks.store, tasks.parents, tasks.payloads
    {
      core.Valid() && tasks.Valid() && core.Repr() !! tasks.Repr()
    }

    ghost function State(): Assembly
      reads core, core.mempool, core.aggregator
      reads core.aggregator.votesAggregators.Values, core.aggregator.timeoutsAggregators.Values
      reads tasks, tasks.parents, tasks.payloads
    {
      Assembled(core.State(), tasks.State())
    }

    constructor (core: Core, tasks: Tasks)
      requires core.Valid() && tasks.Valid() && core.Repr() !! tasks.Repr()
      ensures Valid() && this.core == core && this.tasks == tasks
    {
      this.core, this.tasks := core, tasks;
    }

    /** The synchronizers, their waiters, and the mempool's clean-ups. */
    method TaskTurn(ghost w: World, move: Move)
      requires Valid() && !move.CoreReacts? && AssemblyOk(State()) && Enabled(core.cfg, w, State(), move)
      modifies tasks.Repr()
      ensures Valid() && State() == Moved(core.cfg, old(State()), move)
    {
      RunTask(core.cfg, w, core.State(), tasks, move);
    }

    /** The core reacts, writes what it stores, and hands over what it suspends. */
    method CoreTurn(ghost w: World, x: Stimulus, writes: seq<Command>)
      requires Valid() && Enabled(core.cfg, w, State(), CoreReacts(x, writes))
      requires x.event.LoopBack? && x.event.block.tc.Some? ==> x.event.block.tc.value.votes != []
      modifies core.Repr(), tasks.Repr()
      ensures Valid() && State() == Moved(core.cfg, old(State()), CoreReacts(x, writes))
    {
      CoreMovedIsFollowed(core.cfg, State(), tasks.State(), x, writes);
      var more := ReactAlone(x);
      FollowAlone(if x.event.LoopBack? then Some(x.event.block) else None, more, writes);
    }

    /** What a node does before its loop: a leader of the first round has proposed. */
    method Boot(made: Option<PayloadDigest>, writes: seq<Command>)
      requires Valid() && (forall c :: c in writes ==> c.Write?)
      requires core.State() == Start(core.name, core.boycottProposals)
      requires tasks.State() == NOTHING_DONE
      modifies core.Repr(), tasks.Repr()
      ensures Valid()
      ensures var s := HotStuffNode.Boot(core.cfg, core.name, core.boycottProposals, made);
        State() == Assembly(s, writes, NO_PARENTS_AWAITED, NO_PAYLOAD_AWAITED, ToCore(s.suspensions))
    {
      BootIsFollowed(core.cfg, core.name, core.boycottProposals, made, writes);
      var more := BootAlone(made);
      FollowAlone(None, more, writes);
    }

    method BootAlone(made: Option<PayloadDigest>) returns (more: seq<Suspension>)
      requires Valid() && core.State() == Start(core.name, core.boycottProposals)
      modifies core.Repr()
      ensures Valid() && tasks.State() == old(tasks.State()) && more == core.State().suspensions
      ensures core.State() == HotStuffNode.Boot(core.cfg, core.name, core.boycottProposals, made)
    {
      core.Boot(made);
      more := core.suspensions;
    }

    /** The tasks' part of a turn; the core stays as it is. */
    method FollowAlone(back: Option<Block>, more: seq<Suspension>, writes: seq<Command>)
      requires Valid() && forall c :: c in writes ==> c.Write?
      requires back.Some? ==> back.value in tasks.toCore
      modifies tasks.Repr()
      ensures Valid() && core.State() == old(core.State())
      ensures tasks.State() == Followed(old(tasks.State()), back, more, writes)
    {
      FollowCore(tasks, back, more, writes);
    }

    /** The core's part of a turn; the tasks stay as they are. */
    method ReactAlone(x: Stimulus) returns (more: seq<Suspension>)
      requires Valid()
      requires x.event.LoopBack? && x.event.block.tc.Some? ==> x.event.block.tc.value.votes != []
      modifies core.Repr()
      ensures Valid() && tasks.State() == old(tasks.State())
      ensures core.State() == React(core.cfg, old(core.State()), x)
      ensures more == core.State().suspensions[|old(core.State()).suspensions|..]
    {
      var known := |core.suspensions|;
      core.React(x);
      more := core.suspensions[known..];
    }
  }

  // What the tasks do, whatever the core's state

  /** The tasks' part of a turn of the core. */
  method FollowCore(tasks: Tasks, back: Option<Block>, more: seq<Suspension>, writes: seq<Command>)
    requires tasks.Valid() && forall c :: c in writes ==> c.Write?
    requires back.Some? ==> back.value in tasks.toCore
    modifies tasks.Repr()
    ensures tasks.Valid() && tasks.State() == Followed(old(tasks.State()), back, more, writes)
  {
    if back.Some? {
      tasks.TakeBack(back.value);
    }
    tasks.WriteAll(writes);
    tasks.HandOver(ToParents(more), ToPayloads(more), ToCore(more));
  }

  function Followed(t: TaskState, back: Option<Block>, more: seq<Suspension>, writes: seq<Command>): TaskState {
    TaskState(
      t.history + writes,
      t.parents.(inbox := t.parents.inbox + ToParents(more)),
      t.payloads.(inbox := t.payloads.inbox + ToPayloads(more)),
      (if back.Some? then t.toCore - multiset{back.value} else t.toCore) + ToCore(more))
  }

  lemma CoreMovedIsFollowed(cfg: Config, a: Assembly, tasks: TaskState, x: Stimulus, writes: seq<Command>)
    requires a == Assembled(a.node, tasks)
    ensures var t := React(cfg, a.node, x);
      CoreMoved(cfg, a, x, writes) ==
      Assembled(t, Followed(tasks, if x.event.LoopBack? then Some(x.event.block) else None,
                            t.suspensions[|a.node.suspensions|..], writes))
  {
  }

  const NOTHING_DONE := TaskState([], NO_PARENTS_AWAITED, NO_PAYLOAD_AWAITED, multiset{})

  lemma BootIsFollowed(cfg: Config, name: PublicKey, boycott: bool, made: Option<PayloadDigest>, writes: seq<Command>)
    ensures var s := HotStuffNode.Boot(cfg, name, boycott, made);
      Assembled(s, Followed(NOTHING_DONE, None, s.suspensions, writes)) ==
      Assembly(s, writes, NO_PARENTS_AWAITED, NO_PAYLOAD_AWAITED, ToCore(s.suspensions))
  {
    BootHandsOverOwn(cfg, name, boycott, made);
    assert [] + writes == writes;
  }

  lemma BootHandsOverOwn(cfg: Config, name: PublicKey, boycott: bool, made: Option<PayloadDigest>)
    ensures var own := HotStuffNode.Boot(cfg, name, boycott, made).suspensions;
      ToParents(own) == [] && ToPayloads(own) == []
  {
    var own := HotStuffNode.Boot(cfg, name, boycott, made).suspensions;
    assert own == [] || (|own| == 1 && own[0].OwnProposal? && own[..0] == []);
  }

  method RunTask(ghost cfg: Config, ghost w: World, ghost node: NodeState, tasks: Tasks, move: Move)
    requires tasks.Valid() && !move.CoreReacts? && AssemblyOk(Assembled(node, tasks.State()))
    requires Enabled(cfg, w, Assembled(node, tasks.State()), move)
    modifies tasks.Repr()
    ensures tasks.Valid() && Assembled(node, tasks.State()) == Moved(cfg, Assembled(node, old(tasks.State())), move)
  {
    if move.ParentReceived? || move.ParentAsked? || move.ParentResumed? {
      RunParentTask(cfg, w, node, tasks, move);
    } else {
      RunPayloadTask(cfg, w, node, tasks, move);
    }
  }

  method RunParentTask(ghost cfg: Config, ghost w: World, ghost node: NodeState, tasks: Tasks, move: Move)
    requires tasks.Valid() && Enabled(cfg, w, Assembled(node, tasks.State()), move)
    requires move.ParentReceived? || move.ParentAsked? || move.ParentResumed?
    modifies tasks.Repr()
    ensures tasks.Valid() && Assembled(node, tasks.State()) == Moved(cfg, Assembled(node, old(tasks.State())), move)
  {
    match move
    case ParentReceived => var request := tasks.ParentReceived();
    case ParentAsked(pw) => tasks.ParentAsked(pw);
    case ParentResumed(pw) => tasks.ParentResumed(pw);
  }

  method RunPayloadTask(ghost cfg: Config, ghost w: World, ghost node: NodeState, tasks: Tasks, move: Move)
    requires tasks.Valid() && AssemblyOk(Assembled(node, tasks.State()))
    requires Enabled(cfg, w, Assembled(node, tasks.State()), move)
    requires !move.CoreReacts? && !move.ParentReceived? && !move.ParentAsked? && !move.ParentResumed?
    modifies tasks.Repr()
    ensures tasks.Valid() && Assembled(node, tasks.State()) == Moved(cfg, Assembled(node, old(tasks.State())), move)
  {
    match move
    case PayloadReceived => var requested := tasks.PayloadReceived();
    case PayloadAsked(waiter, p) => tasks.PayloadAsked(waiter, p);
    case PayloadResumed(waiter) =>
      AwaitedInStore(Assembled(node, tasks.State()), waiter);
      tasks.PayloadResumed(waiter);
    case PayloadGivenUp(waiter) => tasks.PayloadGivenUp(waiter);
    case CleanSent(round) => tasks.CleanSent(round);
  }

  lemma AwaitedInStore(a: Assembly, w: Waiter)
    requires StoreMatches(a.node, a.history) && PayloadsAwaited(a.node, a.payloads) && w in a.payloads.waiting
    ensures WaitsForMissing(w.missing, w.block, StoredPayload(ExecuteAll(a.history)))
  {
    forall p | p in w.block.payload && p in a.node.mempool.stored
      ensures p in StoredPayload(ExecuteAll(a.history))
    {
      assert InStore(a.node, PayloadKey(p));
    }
    assert Awaited(a.node, w.missing, w.block);
  }
}
