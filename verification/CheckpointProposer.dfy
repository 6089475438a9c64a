/**
 The checkpoint proposer: one iteration per decision of the extractor, in three phases.

 A proposer waits for the delay between checkpoints, then for a proposal to vote on until its
 timeout, and then rejects again and again until the iteration is decided.
 */
module CheckpointProposer {
  import opened Wrappers
  import opened Committees
  import opened LcBlocks
  import opened CheckpointExtractor

  datatype Phase = Delay | Waiting | Rejecting

  /** An assertion of the program failed, or it waits forever for room in the one-slot channel. */
  datatype Status = Running | AssertionFailed | Blocked

  datatype Config = Config(name: PublicKey, leader: nat -> PublicKey, boycott: bool)

  /** Which branch of the program's `select!` comes next. */
  datatype Input = Timer | Slot | Arrives(event: CheckpointEvent)

  /** The branch, and what the block tree manager answers in case that it is asked. */
  datatype Stimulus = Stimulus(input: Input, proposal: LcDigest, valid: bool)

  datatype ProposerState = ProposerState(
    iteration: nat,
    phase: Phase,
    status: Status,
    lastCheckpoint: Option<LcDigest>,
    proposals: map<nat, LcDigest>,
    slot: Option<LcDigest>,
    signed: seq<CheckpointAction>)

  // What the branches compute

  /** The second phase begins: the leader proposes, and a proposal that came early is taken up. */
  function BeginWaiting(cfg: Config, s: ProposerState, proposal: LcDigest): ProposerState {
    s.(phase := Waiting,
       slot := if s.iteration in s.proposals then Some(s.proposals[s.iteration]) else None,
       signed := if cfg.leader(s.iteration) == cfg.name && !cfg.boycott
                 then s.signed + [Propose(s.iteration, proposal)] else s.signed)
  }

  function BeginIteration(cfg: Config, s: ProposerState, proposal: LcDigest): ProposerState {
    var s1 := s.(proposals := if s.iteration > 0 then s.proposals - {s.iteration - 1} else s.proposals, slot := None);
    if s1.lastCheckpoint.Some? then s1.(phase := Delay) else BeginWaiting(cfg, s1, proposal)
  }

  function Initial(cfg: Config, proposal: LcDigest): ProposerState {
    BeginIteration(cfg, ProposerState(0, Waiting, Running, None, map[], None, []), proposal)
  }

  function OnCheckpoint(cfg: Config, s: ProposerState, i: nat, decision: Option<LcDigest>, proposal: LcDigest)
    : ProposerState
  {
    if i != s.iteration then s.(status := AssertionFailed)
    else BeginIteration(cfg, s.(iteration := s.iteration + 1, lastCheckpoint := decision), proposal)
  }

  function OnProposal(s: ProposerState, i: nat, b: LcDigest): ProposerState {
    if i < s.iteration || i in s.proposals then s
    else
      var s1 := s.(proposals := s.proposals[i := b]);
      if s.phase != Waiting || i != s.iteration then s1
      else if s.slot.Some? then s1.(status := Blocked)
      else s1.(slot := Some(b))
  }

  function OnSlot(s: ProposerState, valid: bool): ProposerState {
    if s.phase != Waiting || s.slot.None? then s
    else s.(slot := None,
            signed := s.signed + [if valid then Accept(s.iteration, s.slot.value) else Reject(s.iteration)])
  }

  function OnTimer(cfg: Config, s: ProposerState, proposal: LcDigest): ProposerState {
    if s.phase == Delay then BeginWaiting(cfg, s, proposal)
    else s.(phase := Rejecting, signed := s.signed + [Reject(s.iteration)])
  }

  function React(cfg: Config, s: ProposerState, x: Stimulus): ProposerState {
    if s.status != Running then s
    else
      match x.input
      case Timer => OnTimer(cfg, s, x.proposal)
      case Slot => OnSlot(s, x.valid)
      case Arrives(NewCheckpoint(i, decision)) => OnCheckpoint(cfg, s, i, decision, x.proposal)
      case Arrives(NewProposal(i, b)) => OnProposal(s, i, b)
  }

  class Proposer {
    const cfg: Config
    var currentIteration: nat
    var phase: Phase
    var lastCheckpoint: Option<LcDigest>
    var proposals: map<nat, LcDigest>
    var slot: Option<LcDigest>
    var signed: seq<CheckpointAction>

    function State(): ProposerState
      reads this
    {
      ProposerState(currentIteration, phase, Running, lastCheckpoint, proposals, slot, signed)
    }

    constructor (cfg: Config, proposal: LcDigest)
      ensures this.cfg == cfg && State() == Initial(cfg, proposal)
    {
      this.cfg := cfg;
      currentIteration, phase, lastCheckpoint := 0, Waiting, None;
      proposals, slot, signed := map[], None, [];
      new;
      EnterIteration(proposal);
    }

    method EnterIteration(proposal: LcDigest)
      modifies this
      ensures State() == BeginIteration(cfg, old(State()), proposal)
    {
      if currentIteration > 0 {
        proposals := proposals - {currentIteration - 1};
      }
      slot := None;
      if lastCheckpoint.Some? {
        phase := Delay;
      } else {
        EnterWaiting(proposal);
      }
    }

    method EnterWaiting(proposal: LcDigest)
      modifies this
      ensures State() == BeginWaiting(cfg, old(State()), proposal)
    {
      if cfg.leader(currentIteration) == cfg.name && !cfg.boycott {
        signed := signed + [Propose(currentIteration, proposal)];
      }
      slot := if currentIteration in proposals then Some(proposals[currentIteration]) else None;
      phase := Waiting;
    }

    /** In order, the proposer's assertions hold and its channel has room. */
    ghost predicate InOrder(x: Stimulus)
      reads this
    {
      && ProposerOk(State())
      && (x.input.Arrives? && x.input.event.NewCheckpoint? ==> x.input.event.iteration == currentIteration)
    }

    /** One turn of whichever of the program's loops is running. */
    method Turn(x: Stimulus)
      requires InOrder(x)
      modifies this
      ensures State() == React(cfg, old(State()), x)
      ensures ProposerOk(State())
    {
      TurnKeepsOk(cfg, State(), x);
      match x.input
      case Timer =>
        if phase == Delay {
          EnterWaiting(x.proposal);
        } else {
          phase := Rejecting;
          signed := signed + [Reject(currentIteration)];
        }
      case Slot =>
        if phase == Waiting && slot.Some? {
          signed := signed + [if x.valid then Accept(currentIteration, slot.value) else Reject(currentIteration)];
          slot := None;
        }
      case Arrives(NewCheckpoint(i, decision)) =>
        assert i == currentIteration;
        lastCheckpoint := decision;
        currentIteration := currentIteration + 1;
        EnterIteration(x.proposal);
      case Arrives(NewProposal(i, b)) =>
        if i >= currentIteration && i !in proposals {
          proposals := proposals[i := b];
          if phase == Waiting && i == currentIteration {
            slot := Some(b);
          }
        }
    }
  }

  // The discipline of a proposer's signatures

  /** What a node may sign after it signed `earlier`. */
  predicate MayFollow(earlier: CheckpointAction, later: CheckpointAction) {
    || earlier.iteration < later.iteration
    || (earlier.iteration == later.iteration && !later.Propose? && (later.Accept? ==> earlier.Propose?))
  }

  predicate Disciplined(signed: seq<CheckpointAction>) {
    forall i, j :: 0 <= i < j < |signed| ==> MayFollow(signed[i], signed[j])
  }

  /** Nothing but the node's own proposal has been signed in this iteration. */
  predicate NotYetVoted(s: ProposerState) {
    forall a :: a in s.signed && a.iteration == s.iteration ==> a.Propose?
  }

  ghost predicate ProposerOk(s: ProposerState) {
    && s.status == Running
    && Disciplined(s.signed)
    && (forall a :: a in s.signed ==> a.iteration <= s.iteration)
    && (forall i :: i in s.proposals ==> s.iteration <= i)
    && (forall b :: Accept(s.iteration, b) in s.signed ==> s.iteration in s.proposals && s.proposals[s.iteration] == b)
    && match s.phase
       case Delay => s.slot.None? && forall a :: a in s.signed ==> a.iteration < s.iteration
       case Waiting =>
         if s.slot.Some? then NotYetVoted(s) && s.iteration in s.proposals && s.proposals[s.iteration] == s.slot.value
         else s.iteration in s.proposals <==> !NotYetVoted(s)
       case Rejecting => true
  }

  lemma SignedGrows(signed: seq<CheckpointAction>, a: CheckpointAction)
    requires Disciplined(signed) && forall e :: e in signed ==> MayFollow(e, a)
    ensures Disciplined(signed + [a])
  {
    var longer := signed + [a];
    forall i, j | 0 <= i < j < |longer| ensures MayFollow(longer[i], longer[j]) {
      assert longer[i] in signed;
    }
  }

  lemma BeginWaitingKeepsOk(cfg: Config, s: ProposerState, proposal: LcDigest)
    requires s.status == Running && Disciplined(s.signed)
    requires forall a :: a in s.signed ==> a.iteration < s.iteration
    requires forall i :: i in s.proposals ==> s.iteration <= i
    ensures ProposerOk(BeginWaiting(cfg, s, proposal))
  {
    SignedGrows(s.signed, Propose(s.iteration, proposal));
  }

  lemma BeginIterationKeepsOk(cfg: Config, s: ProposerState, proposal: LcDigest)
    requires s.status == Running && Disciplined(s.signed)
    requires forall a :: a in s.signed ==> a.iteration < s.iteration
    requires forall i :: i in s.proposals ==> s.iteration <= i + 1
    ensures ProposerOk(BeginIteration(cfg, s, proposal))
  {
    var s1 := s.(proposals := if s.iteration > 0 then s.proposals - {s.iteration - 1} else s.proposals, slot := None);
    if s1.lastCheckpoint.None? {
      BeginWaitingKeepsOk(cfg, s1, proposal);
    }
  }

  /** Every turn in order keeps the discipline; in particular nothing is sent into a full slot. */
  lemma TurnKeepsOk(cfg: Config, s: ProposerState, x: Stimulus)
    requires ProposerOk(s)
    requires x.input.Arrives? && x.input.event.NewCheckpoint? ==> x.input.event.iteration == s.iteration
    ensures ProposerOk(React(cfg, s, x))
    ensures React(cfg, s, x).iteration ==
      if x.input.Arrives? && x.input.event.NewCheckpoint? then s.iteration + 1 else s.iteration
  {
    match x.input
    case Timer =>
      if s.phase == Delay {
        BeginWaitingKeepsOk(cfg, s, x.proposal);
      } else {
        SignedGrows(s.signed, Reject(s.iteration));
      }
    case Slot =>
      if s.phase == Waiting && s.slot.Some? {
        SignedGrows(s.signed, if x.valid then Accept(s.iteration, s.slot.value) else Reject(s.iteration));
      }
    case Arrives(NewCheckpoint(i, decision)) =>
      BeginIterationKeepsOk(cfg, s.(iteration := s.iteration + 1, lastCheckpoint := decision), x.proposal);
    case Arrives(NewProposal(i, b)) =>
  }

  /** An Accept is signed only for the proposal in the slot, when the tree manager finds it valid. */
  lemma NewAccept(cfg: Config, s: ProposerState, x: Stimulus, a: CheckpointAction)
    requires a.Accept? && a !in s.signed && a in React(cfg, s, x).signed
    ensures x.input.Slot? && x.valid && s.slot == Some(a.block) && a.iteration == s.iteration
  {
  }

  // Whole runs

  function ProposerRun(cfg: Config, proposal: LcDigest, xs: seq<Stimulus>): ProposerState {
    if xs == [] then Initial(cfg, proposal)
    else React(cfg, ProposerRun(cfg, proposal, xs[..|xs| - 1]), xs[|xs| - 1])
  }

  /** The decisions among the inputs, in their order. */
  function Checkpoints(xs: seq<Stimulus>): seq<CheckpointEvent> {
    if xs == [] then []
    else
      var rest, input := Checkpoints(xs[..|xs| - 1]), xs[|xs| - 1].input;
      if input.Arrives? && input.event.NewCheckpoint? then rest + [input.event] else rest
  }

  /**
   Lock step: fed with the extractor's decisions in order, and with anything else in between, the
   proposer never fails an assertion and never blocks, and it is in the iteration after the last decision.
   */
  lemma {:induction false} LockStep(cfg: Config, proposal: LcDigest, xs: seq<Stimulus>,
                                    c: Committee, ledger: seq<LedgerEntry>)
    requires Checkpoints(xs) <= Extract(c, ledger).1
    ensures ProposerOk(ProposerRun(cfg, proposal, xs))
    ensures ProposerRun(cfg, proposal, xs).iteration == |Checkpoints(xs)|
  {
    if xs == [] {
      BeginIterationKeepsOk(cfg, ProposerState(0, Waiting, Running, None, map[], None, []), proposal);
    } else {
      var init, x := xs[..|xs| - 1], xs[|xs| - 1];
      LockStep(cfg, proposal, init, c, ledger);
      EventsAreNumbered(c, ledger);
      if x.input.Arrives? && x.input.event.NewCheckpoint? {
        assert Checkpoints(xs)[|Checkpoints(init)|] == x.input.event;
      }
      TurnKeepsOk(cfg, ProposerRun(cfg, proposal, init), x);
    }
  }

  // What a run signs

  /** The block of the first proposal for the iteration among the inputs. */
  function First(xs: seq<Stimulus>, i: nat): Option<LcDigest> {
    if xs == [] then None
    else
      var earlier, input := First(xs[..|xs| - 1], i), xs[|xs| - 1].input;
      if earlier.None? && input.Arrives? && input.event.NewProposal? && input.event.iteration == i
      then Some(input.event.block) else earlier
  }

  function Recorded(s: ProposerState, i: nat): Option<LcDigest> {
    if i in s.proposals then Some(s.proposals[i]) else None
  }

  /** A proposal for an iteration that is not over is recorded unless there is one already. */
  lemma RecordsOneMore(cfg: Config, s: ProposerState, x: Stimulus, i: nat)
    requires s.status == Running && React(cfg, s, x).iteration <= i && s.iteration <= i
    ensures Recorded(React(cfg, s, x), i) ==
      if Recorded(s, i).None? && x.input.Arrives? && x.input.event.NewProposal? && x.input.event.iteration == i
      then Some(x.input.event.block) else Recorded(s, i)
  {
  }

  /** Of each iteration that is not over, the first proposal is recorded, and stays. */
  lemma {:induction false} FirstProposalStays(cfg: Config, proposal: LcDigest, xs: seq<Stimulus>,
                                              c: Committee, ledger: seq<LedgerEntry>)
    requires Checkpoints(xs) <= Extract(c, ledger).1
    ensures var s := ProposerRun(cfg, proposal, xs);
      forall i: nat :: s.iteration <= i ==> First(xs, i) == Recorded(s, i)
  {
    if xs != [] {
      var init, x := xs[..|xs| - 1], xs[|xs| - 1];
      FirstProposalStays(cfg, proposal, init, c, ledger);
      LockStep(cfg, proposal, init, c, ledger);
      LockStep(cfg, proposal, xs, c, ledger);
      var s := ProposerRun(cfg, proposal, init);
      forall i: nat | React(cfg, s, x).iteration <= i ensures First(xs, i) == Recorded(React(cfg, s, x), i) {
        RecordsOneMore(cfg, s, x, i);
      }
    }
  }

  /** Whatever the node accepts in an iteration is the first proposal that it received for it. */
  lemma {:induction false} AcceptsFirstProposal(cfg: Config, proposal: LcDigest, xs: seq<Stimulus>,
                                                c: Committee, ledger: seq<LedgerEntry>)
    requires Checkpoints(xs) <= Extract(c, ledger).1
    ensures forall a :: a in ProposerRun(cfg, proposal, xs).signed && a.Accept? ==>
      First(xs, a.iteration) == Some(a.block)
  {
    if xs != [] {
      var init, x := xs[..|xs| - 1], xs[|xs| - 1];
      AcceptsFirstProposal(cfg, proposal, init, c, ledger);
      FirstProposalStays(cfg, proposal, init, c, ledger);
      LockStep(cfg, proposal, init, c, ledger);
      var s := ProposerRun(cfg, proposal, init);
      forall a | a in React(cfg, s, x).signed && a.Accept? ensures First(xs, a.iteration) == Some(a.block) {
        if a !in s.signed {
          NewAccept(cfg, s, x, a);
        }
      }
    }
  }

  /** A run signs at most one Accept per iteration, and none after it rejected or accepted. */
  lemma OneAcceptPerIteration(cfg: Config, proposal: LcDigest, xs: seq<Stimulus>,
                              c: Committee, ledger: seq<LedgerEntry>, i: nat, j: nat)
    requires Checkpoints(xs) <= Extract(c, ledger).1
    requires var signed := ProposerRun(cfg, proposal, xs).signed;
      i < |signed| && j < |signed| && signed[i].Accept? && signed[j].iteration == signed[i].iteration
    ensures var signed := ProposerRun(cfg, proposal, xs).signed;
      (signed[j].Accept? ==> j == i) && (signed[j].Reject? ==> i < j)
  {
    LockStep(cfg, proposal, xs, c, ledger);
    var signed := ProposerRun(cfg, proposal, xs).signed;
    assert i < j ==> MayFollow(signed[i], signed[j]);
    assert j < i ==> MayFollow(signed[j], signed[i]);
  }
}
