/**
 How often suspended blocks are looped back. No hand-over is lost or made up: each one is still held by
 a task, was dropped in one of three ways, or has come back to the core.
 */
module LoopBacks {
  import opened Committees
  import opened Messages
  import opened HotStuffSafety
  import opened HotStuffNode
  import opened Stores
  import opened Synchronizers
  import opened NodeAssembly
  import opened AssemblyRuns

  // Counting

  function Times(blocks: seq<Block>, b: Block): nat {
    if blocks == [] then 0 else (if blocks[0] == b then 1 else 0) + Times(blocks[1..], b)
  }

  function SyncTimes(inbox: seq<SynchronizerMessage>, b: Block): nat {
    if inbox == [] then 0 else (if inbox[0].Sync? && inbox[0].block == b then 1 else 0) + SyncTimes(inbox[1..], b)
  }

  /** How often the core has handed the block over. */
  function SuspendedTimes(suspensions: seq<Suspension>, b: Block): nat {
    if suspensions == [] then 0 else (if suspensions[0].block == b then 1 else 0) + SuspendedTimes(suspensions[1..], b)
  }

  function ParentWaiters(waiting: set<ParentWaiter>, b: Block): set<ParentWaiter> {
    set w | w in waiting && w.block == b
  }

  function PayloadWaiters(waiting: set<Waiter>, b: Block): set<Waiter> {
    set w | w in waiting && w.block == b
  }

  /** How often the block is with the tasks: handed to them, waited for, or on its way back. */
  function Held(a: Assembly, b: Block): nat {
    HeldByParents(a.parents, b) + HeldByPayloads(a.payloads, b) + a.toCore[b]
  }

  function HeldByParents(parents: ParentState, b: Block): nat {
    Times(parents.inbox, b) + |ParentWaiters(parents.waiting, b)|
  }

  function HeldByPayloads(payloads: PayloadState, b: Block): nat {
    SyncTimes(payloads.inbox, b) + |PayloadWaiters(payloads.waiting, b)|
  }

  /** Whether the move is the core's reaction to the block that comes back. */
  function LoopedBack(move: Move, b: Block): nat {
    if move.CoreReacts? && move.x.event == LoopBack(b) then 1 else 0
  }

  /** Whether the move drops a hand-over: of a pending digest, or with a waiter that gives up. */
  function Dropped(a: Assembly, move: Move, b: Block): nat {
    match move
    case ParentReceived =>
      if a.parents.inbox != [] && a.parents.inbox[0] == b && b.Digest() in a.parents.pending then 1 else 0
    case PayloadReceived => if a.payloads.inbox != [] && IsPendingSync(a.payloads, a.payloads.inbox[0], b) then 1 else 0
    case PayloadGivenUp(w) => if w.block == b then 1 else 0
    case _ => 0
  }

  predicate IsPendingSync(payloads: PayloadState, m: SynchronizerMessage, b: Block) {
    m.Sync? && m.block == b && b.Digest() in payloads.pending
  }

  lemma {:induction false} TimesConcat(x: seq<Block>, y: seq<Block>, b: Block)
    ensures Times(x + y, b) == Times(x, b) + Times(y, b)
  {
    if x == [] {
      assert x + y == y;
    } else {
      TimesConcat(x[1..], y, b);
      assert (x + y)[1..] == x[1..] + y;
    }
  }

  lemma {:induction false} SyncTimesConcat(x: seq<SynchronizerMessage>, y: seq<SynchronizerMessage>, b: Block)
    ensures SyncTimes(x + y, b) == SyncTimes(x, b) + SyncTimes(y, b)
  {
    if x == [] {
      assert x + y == y;
    } else {
      SyncTimesConcat(x[1..], y, b);
      assert (x + y)[1..] == x[1..] + y;
    }
  }

  lemma {:induction false} SuspendedTimesConcat(x: seq<Suspension>, y: seq<Suspension>, b: Block)
    ensures SuspendedTimes(x + y, b) == SuspendedTimes(x, b) + SuspendedTimes(y, b)
  {
    if x == [] {
      assert x + y == y;
    } else {
      SuspendedTimesConcat(x[1..], y, b);
      assert (x + y)[1..] == x[1..] + y;
    }
  }

  /** Every suspension goes to exactly one place. */
  lemma {:induction false} SuspensionsGoSomewhere(suspensions: seq<Suspension>, b: Block)
    ensures Times(ToParents(suspensions), b) + SyncTimes(ToPayloads(suspensions), b) + ToCore(suspensions)[b] ==
      SuspendedTimes(suspensions, b)
  {
    if suspensions != [] {
      var init, last := suspensions[..|suspensions| - 1], suspensions[|suspensions| - 1];
      SuspensionsGoSomewhere(init, b);
      assert suspensions == init + [last];
      SuspendedTimesConcat(init, [last], b);
      TimesConcat(ToParents(init), [last.block], b);
      if last.AwaitsPayload? {
        SyncTimesConcat(ToPayloads(init), [Sync(last.missing, last.block)], b);
      }
    }
  }

  // Single moves

  lemma OneMoreParentWaiter(waiting: set<ParentWaiter>, w: ParentWaiter, b: Block)
    requires w !in waiting
    ensures |ParentWaiters(waiting + {w}, b)| == |ParentWaiters(waiting, b)| + if w.block == b then 1 else 0
  {
    assert ParentWaiters(waiting + {w}, b) == ParentWaiters(waiting, b) + if w.block == b then {w} else {};
  }

  lemma OneMorePayloadWaiter(waiting: set<Waiter>, w: Waiter, b: Block)
    requires w !in waiting
    ensures |PayloadWaiters(waiting + {w}, b)| == |PayloadWaiters(waiting, b)| + if w.block == b then 1 else 0
  {
    assert PayloadWaiters(waiting + {w}, b) == PayloadWaiters(waiting, b) + if w.block == b then {w} else {};
  }

  lemma AwaitingConserves(parents: ParentState, b: Block)
    requires parents.inbox != [] && forall w :: w in parents.waiting ==> w.id < parents.nextId
    ensures HeldByParents(AwaitParent(parents.(inbox := parents.inbox[1..]), parents.inbox[0]), b)
            + (if parents.inbox[0] == b && b.Digest() in parents.pending then 1 else 0) == HeldByParents(parents, b)
  {
    var first := parents.inbox[0];
    if first.Digest() !in parents.pending {
      OneMoreParentWaiter(parents.waiting, ParentWaiter(parents.nextId, first), b);
    }
  }

  lemma ParentArrivalConserves(parents: ParentState, w: ParentWaiter, b: Block)
    requires w in parents.waiting
    ensures HeldByParents(ParentArrived(parents, w), b) + (if w.block == b then 1 else 0) == HeldByParents(parents, b)
  {
    assert ParentWaiters(parents.waiting - {w}, b) == ParentWaiters(parents.waiting, b) - {w};
  }

  lemma HandlingConserves(payloads: PayloadState, b: Block)
    requires payloads.inbox != [] && forall w :: w in payloads.waiting ==> w.id < payloads.nextId
    ensures var m := payloads.inbox[0];
      HeldByPayloads(HandleMessage(payloads.(inbox := payloads.inbox[1..]), m), b)
      + (if IsPendingSync(payloads, m, b) then 1 else 0) == HeldByPayloads(payloads, b)
  {
    var m := payloads.inbox[0];
    if m.Sync? && m.block.Digest() !in payloads.pending {
      OneMorePayloadWaiter(payloads.waiting, Waiter(payloads.nextId, m.block, m.missing), b);
    }
  }

  lemma LosingWaiterConserves(payloads: PayloadState, w: Waiter, b: Block)
    requires w in payloads.waiting
    ensures |PayloadWaiters(payloads.waiting - {w}, b)| + (if w.block == b then 1 else 0) ==
      |PayloadWaiters(payloads.waiting, b)|
  {
    assert PayloadWaiters(payloads.waiting - {w}, b) == PayloadWaiters(payloads.waiting, b) - {w};
  }

  lemma CoreConserves(cfg: Config, a: Assembly, x: Stimulus, writes: seq<Command>, b: Block)
    requires x.event.LoopBack? ==> x.event.block in a.toCore
    ensures var c := CoreMoved(cfg, a, x, writes);
      Held(c, b) + LoopedBack(CoreReacts(x, writes), b) + SuspendedTimes(a.node.suspensions, b) ==
      Held(a, b) + SuspendedTimes(c.node.suspensions, b)
  {
    var t := React(cfg, a.node, x);
    var more := t.suspensions[|a.node.suspensions|..];
    assert t.suspensions == a.node.suspensions + more by {
      assert Later(a.node, t);
    }
    SuspendedTimesConcat(a.node.suspensions, more, b);
    SuspensionsGoSomewhere(more, b);
    TimesConcat(a.parents.inbox, ToParents(more), b);
    SyncTimesConcat(a.payloads.inbox, ToPayloads(more), b);
  }

  lemma ParentMoveConserves(cfg: Config, w: World, a: Assembly, move: Move, b: Block)
    requires ParentsOk(a.parents) && Enabled(cfg, w, a, move)
    requires move.ParentReceived? || move.ParentAsked? || move.ParentResumed?
    ensures Held(Moved(cfg, a, move), b) + Dropped(a, move, b) == Held(a, b)
  {
    match move
    case ParentReceived => AwaitingConserves(a.parents, b);
    case ParentResumed(pw) => ParentArrivalConserves(a.parents, pw, b);
    case ParentAsked(pw) =>
  }

  lemma PayloadMoveConserves(cfg: Config, w: World, a: Assembly, move: Move, b: Block)
    requires PendingOk(a.payloads) && Enabled(cfg, w, a, move)
    requires !move.CoreReacts? && !move.ParentReceived? && !move.ParentAsked? && !move.ParentResumed?
    ensures Held(Moved(cfg, a, move), b) + Dropped(a, move, b) == Held(a, b)
  {
    match move
    case PayloadReceived => HandlingConserves(a.payloads, b);
    case PayloadResumed(waiter) => LosingWaiterConserves(a.payloads, waiter, b);
    case PayloadGivenUp(waiter) => LosingWaiterConserves(a.payloads, waiter, b);
    case CleanSent(round) => SyncTimesConcat(a.payloads.inbox, [Clean(round)], b);
    case PayloadAsked(waiter, p) =>
  }

  /** Each hand-over is conserved: after a move it is held as before, has come back, or was dropped. */
  lemma MoveConserves(cfg: Config, w: World, a: Assembly, move: Move, b: Block)
    requires ParentsOk(a.parents) && PendingOk(a.payloads) && Enabled(cfg, w, a, move)
    ensures var c := Moved(cfg, a, move);
      Held(c, b) + LoopedBack(move, b) + Dropped(a, move, b) + SuspendedTimes(a.node.suspensions, b) ==
      Held(a, b) + SuspendedTimes(c.node.suspensions, b)
  {
    if move.CoreReacts? {
      CoreConserves(cfg, a, move.x, move.writes, b);
    } else {
      OnlyReactionsMoveNodes(cfg, a, move);
      if move.ParentReceived? || move.ParentAsked? || move.ParentResumed? {
        ParentMoveConserves(cfg, w, a, move, b);
      } else {
        PayloadMoveConserves(cfg, w, a, move, b);
      }
    }
  }

  // Runs

  datatype Action = Action(node: PublicKey, move: Move)

  ghost predicate MoveAt(cfg: Config, run: seq<Assemblies>, actions: seq<Action>, i: nat)
    requires |run| == |actions| + 1 && i < |actions|
  {
    StepBy(cfg, run[i], run[i + 1], actions[i].node, actions[i].move)
  }

  /** A run together with the moves that make it. */
  ghost predicate MovesRun(cfg: Config, run: seq<Assemblies>, actions: seq<Action>) {
    && |run| == |actions| + 1
    && Init(cfg, run[0])
    && forall i :: 0 <= i < |actions| ==> MoveAt(cfg, run, actions, i)
  }

  /** How often the block came back to the node's core in the first `n` moves. */
  function LoopBacksOf(actions: seq<Action>, h: PublicKey, b: Block, n: nat): nat
    requires n <= |actions|
  {
    if n == 0 then 0
    else
      var action := actions[n - 1];
      LoopBacksOf(actions, h, b, n - 1) + if action.node == h then LoopedBack(action.move, b) else 0
  }

  /** How often a hand-over of the block was dropped in the first `n` moves. */
  function DropsOf(run: seq<Assemblies>, actions: seq<Action>, h: PublicKey, b: Block, n: nat): nat
    requires |run| == |actions| + 1 && n <= |actions|
    requires forall i :: 0 <= i < n ==> h in run[i]
  {
    if n == 0 then 0
    else
      var action := actions[n - 1];
      DropsOf(run, actions, h, b, n - 1) + if action.node == h then Dropped(run[n - 1][h], action.move, b) else 0
  }

  /** The hand-overs that are not held any more. */
  function Settled(a: Assembly, b: Block): int {
    SuspendedTimes(a.node.suspensions, b) - Held(a, b)
  }

  lemma MovesRunIsRun(cfg: Config, run: seq<Assemblies>, actions: seq<Action>)
    requires MovesRun(cfg, run, actions)
    ensures Run(cfg, run)
  {
    forall i | 0 <= i < |run| - 1 ensures Step(cfg, run[i], run[i + 1]) {
      assert MoveAt(cfg, run, actions, i);
    }
  }

  lemma AssembliesAreOk(cfg: Config, run: seq<Assemblies>, actions: seq<Action>, i: nat, h: PublicKey)
    requires MovesRun(cfg, run, actions) && i < |run| && h in run[i]
    ensures AssemblyOk(run[i][h])
  {
    MovesRunIsRun(cfg, run, actions);
    RunKeepsOk(cfg, run, i);
  }

  lemma BootHolds(cfg: Config, h: PublicKey, a: Assembly, b: Block)
    requires Booted(cfg, h, a)
    ensures Held(a, b) == SuspendedTimes(a.node.suspensions, b)
  {
    var boycott, made :| a.node == Boot(cfg, h, boycott, made);
    var own := a.node.suspensions;
    assert own == [] || (|own| == 1 && own[0].OwnProposal?);
    SuspensionsGoSomewhere(own, b);
    assert ParentWaiters(a.parents.waiting, b) == {} && PayloadWaiters(a.payloads.waiting, b) == {};
  }

  lemma ActionConserves(cfg: Config, g: Assemblies, g': Assemblies, action: Action, h: PublicKey, b: Block)
    requires h in g && AssemblyOk(g[h]) && StepBy(cfg, g, g', action.node, action.move)
    ensures h in g'
    ensures Settled(g'[h], b) == Settled(g[h], b) +
      if action.node == h then LoopedBack(action.move, b) + Dropped(g[h], action.move, b) else 0
  {
    if action.node == h {
      MoveConserves(cfg, Protocol.WorldOf(NodesOf(g)), g[h], action.move, b);
    }
  }

  /** The move settles the hand-overs of the block that it loops back or drops. */
  predicate Accounted(run: seq<Assemblies>, actions: seq<Action>, h: PublicKey, b: Block, i: nat)
    requires |run| == |actions| + 1 && i < |actions| && h in run[i] && h in run[i + 1]
  {
    Settled(run[i + 1][h], b) == Settled(run[i][h], b) +
      if actions[i].node == h then LoopedBack(actions[i].move, b) + Dropped(run[i][h], actions[i].move, b) else 0
  }

  lemma NodesStay(cfg: Config, run: seq<Assemblies>, actions: seq<Action>, h: PublicKey, n: nat)
    requires MovesRun(cfg, run, actions) && n < |run| && h in run[0]
    ensures h in run[n]
  {
    MovesRunIsRun(cfg, run, actions);
    AssembledNodesStay(cfg, run, h, n);
  }

  lemma ActionOfRunConserves(cfg: Config, run: seq<Assemblies>, actions: seq<Action>, h: PublicKey, b: Block, n: nat)
    requires MovesRun(cfg, run, actions) && n < |actions| && h in run[n]
    ensures h in run[n + 1] && Accounted(run, actions, h, b, n)
  {
    AssembliesAreOk(cfg, run, actions, n, h);
    assert MoveAt(cfg, run, actions, n);
    ActionConserves(cfg, run[n], run[n + 1], actions[n], h, b);
  }

  lemma {:induction false} SettledAddsUp(run: seq<Assemblies>, actions: seq<Action>, h: PublicKey, b: Block, n: nat)
    requires |run| == |actions| + 1 && n <= |actions|
    requires forall i :: 0 <= i <= n ==> h in run[i]
    requires forall i :: 0 <= i < n ==> Accounted(run, actions, h, b, i)
    ensures Settled(run[n][h], b) ==
      Settled(run[0][h], b) + LoopBacksOf(actions, h, b, n) + DropsOf(run, actions, h, b, n)
  {
    if n > 0 {
      SettledAddsUp(run, actions, h, b, n - 1);
      assert Accounted(run, actions, h, b, n - 1);
    }
  }

  /**
   In every run, the hand-overs of a block are those that came back, those that were dropped, and those
   that are still held.
   */
  lemma HandOversAreConserved(cfg: Config, run: seq<Assemblies>, actions: seq<Action>, h: PublicKey, b: Block, n: nat)
    requires MovesRun(cfg, run, actions) && n <= |actions| && h in run[0]
    ensures forall i :: 0 <= i <= n ==> h in run[i]
    ensures LoopBacksOf(actions, h, b, n) + DropsOf(run, actions, h, b, n) + Held(run[n][h], b) ==
      SuspendedTimes(run[n][h].node.suspensions, b)
  {
    forall i | 0 <= i <= n ensures h in run[i] {
      NodesStay(cfg, run, actions, h, i);
    }
    forall i | 0 <= i < n ensures Accounted(run, actions, h, b, i) {
      ActionOfRunConserves(cfg, run, actions, h, b, i);
    }
    SettledAddsUp(run, actions, h, b, n);
    BootHolds(cfg, h, run[0][h], b);
  }

  /**
   A block comes back at most as often as it was handed over. If it was handed over once, it has come back
   exactly once if and only if that hand-over was not dropped and is not held any more.
   */
  lemma LoopedBackAtMostAsSuspended(cfg: Config, run: seq<Assemblies>, actions: seq<Action>,
                                    h: PublicKey, b: Block, n: nat)
    requires MovesRun(cfg, run, actions) && n <= |actions| && h in run[0]
    ensures forall i :: 0 <= i <= n ==> h in run[i]
    ensures LoopBacksOf(actions, h, b, n) <= SuspendedTimes(run[n][h].node.suspensions, b)
    ensures SuspendedTimes(run[n][h].node.suspensions, b) == 1 ==>
      (LoopBacksOf(actions, h, b, n) == 1 <==> DropsOf(run, actions, h, b, n) == 0 && Held(run[n][h], b) == 0)
  {
    HandOversAreConserved(cfg, run, actions, h, b, n);
  }
}
