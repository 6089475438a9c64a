/**
 What the proposer does with each branch of its loops, all of it, and what follows for whole runs: the
 first proposal is voted on as the tree manager finds it.
 */
module CheckpointTurns {
  import opened Wrappers
  import opened Committees
  import opened LcBlocks
  import opened CheckpointExtractor
  import opened CheckpointProposer

  /** The waiting phase has begun: the leader has proposed, and a proposal that came early is in the slot. */
  predicate WaitingBegun(cfg: Config, s: ProposerState, t: ProposerState, proposal: LcDigest) {
    && t.signed == s.signed + (if cfg.leader(s.iteration) == cfg.name && !cfg.boycott
                               then [Propose(s.iteration, proposal)] else [])
    && t.slot == (if s.iteration in s.proposals then Some(s.proposals[s.iteration]) else None)
    && t == s.(phase := Waiting, slot := t.slot, signed := t.signed)
  }

  /** A proposal in the slot is accepted exactly if it is valid, and rejected otherwise; then the slot is empty. */
  lemma SlotOutcome(cfg: Config, s: ProposerState, x: Stimulus)
    requires s.status == Running && x.input.Slot?
    ensures React(cfg, s, x) ==
      if s.phase == Waiting && s.slot.Some? then
        s.(slot := None,
           signed := s.signed + [if x.valid then Accept(s.iteration, s.slot.value) else Reject(s.iteration)])
      else s
  {
  }

  /** The timer ends the delay, and otherwise makes the node reject once more. */
  lemma TimerOutcome(cfg: Config, s: ProposerState, x: Stimulus)
    requires s.status == Running && x.input.Timer?
    ensures var t := React(cfg, s, x);
      if s.phase == Delay then WaitingBegun(cfg, s, t, x.proposal)
      else t == s.(phase := Rejecting, signed := s.signed + [Reject(s.iteration)])
  {
    assert s.signed + [] == s.signed;
  }

  /** A decision ends the iteration; the next one begins with the delay exactly if a checkpoint was decided. */
  lemma DecisionOutcome(cfg: Config, s: ProposerState, x: Stimulus, decision: Option<LcDigest>)
    requires s.status == Running && x.input == Arrives(NewCheckpoint(s.iteration, decision))
    ensures var t := React(cfg, s, x);
      var s1 := s.(iteration := s.iteration + 1, lastCheckpoint := decision,
                   proposals := s.proposals - {s.iteration}, slot := None);
      if decision.Some? then t == s1.(phase := Delay) else WaitingBegun(cfg, s1, t, x.proposal)
  {
    assert s.signed + [] == s.signed;
  }

  /** The first proposal for an iteration that is not over is recorded, and voted on next if its time has come. */
  lemma ProposalOutcome(cfg: Config, s: ProposerState, x: Stimulus, i: nat, b: LcDigest)
    requires ProposerOk(s) && x.input == Arrives(NewProposal(i, b))
    ensures React(cfg, s, x) ==
      if i < s.iteration || i in s.proposals then s
      else s.(proposals := s.proposals[i := b],
              slot := if s.phase == Waiting && i == s.iteration then Some(b) else s.slot)
  {
  }

  lemma InitialOutcome(cfg: Config, proposal: LcDigest)
    ensures var start := ProposerState(0, Waiting, Running, None, map[], None, []);
      WaitingBegun(cfg, start, Initial(cfg, proposal), proposal)
  {
  }

  // Whole runs

  lemma {:induction false} SignedOnlyGrows(cfg: Config, proposal: LcDigest, xs: seq<Stimulus>, n: nat)
    requires n <= |xs|
    ensures ProposerRun(cfg, proposal, xs[..n]).signed <= ProposerRun(cfg, proposal, xs).signed
    decreases |xs|
  {
    if n == |xs| {
      assert xs[..n] == xs;
    } else {
      var init, x := xs[..|xs| - 1], xs[|xs| - 1];
      assert init[..n] == xs[..n];
      SignedOnlyGrows(cfg, proposal, init, n);
      TurnOnlySigns(cfg, ProposerRun(cfg, proposal, init), x);
    }
  }

  lemma TurnOnlySigns(cfg: Config, s: ProposerState, x: Stimulus)
    ensures s.signed <= React(cfg, s, x).signed
  {
  }

  /**
   While it waits and has not voted, a node that has received a proposal for its iteration votes on the
   first one as soon as the slot's turn comes: it accepts if the tree manager finds the block valid, and
   rejects if not.
   */
  lemma FirstProposalIsVotedOn(cfg: Config, proposal: LcDigest, xs: seq<Stimulus>, x: Stimulus,
                               c: Committee, ledger: seq<LedgerEntry>)
    requires Checkpoints(xs) <= Extract(c, ledger).1 && x.input.Slot?
    requires var s := ProposerRun(cfg, proposal, xs);
      s.phase == Waiting && NotYetVoted(s) && First(xs, s.iteration).Some?
    ensures var s := ProposerRun(cfg, proposal, xs);
      var b := First(xs, s.iteration).value;
      ProposerRun(cfg, proposal, xs + [x]).signed ==
      s.signed + [if x.valid then Accept(s.iteration, b) else Reject(s.iteration)]
  {
    var s := ProposerRun(cfg, proposal, xs);
    LockStep(cfg, proposal, xs, c, ledger);
    FirstProposalStays(cfg, proposal, xs, c, ledger);
    assert First(xs, s.iteration) == Recorded(s, s.iteration);
    SlotOutcome(cfg, s, x);
    assert (xs + [x])[..|xs|] == xs;
  }

  /** Once validated in time, the first proposal has the node's Accept for the rest of the run. */
  lemma ValidatedIsAccepted(cfg: Config, proposal: LcDigest, xs: seq<Stimulus>, n: nat,
                            c: Committee, ledger: seq<LedgerEntry>)
    requires n < |xs| && Checkpoints(xs[..n]) <= Extract(c, ledger).1 && xs[n].input.Slot? && xs[n].valid
    requires var s := ProposerRun(cfg, proposal, xs[..n]);
      s.phase == Waiting && NotYetVoted(s) && First(xs[..n], s.iteration).Some?
    ensures var s := ProposerRun(cfg, proposal, xs[..n]);
      Accept(s.iteration, First(xs[..n], s.iteration).value) in ProposerRun(cfg, proposal, xs).signed
  {
    FirstProposalIsVotedOn(cfg, proposal, xs[..n], xs[n], c, ledger);
    assert xs[..n + 1] == xs[..n] + [xs[n]];
    SignedOnlyGrows(cfg, proposal, xs, n + 1);
  }
}
