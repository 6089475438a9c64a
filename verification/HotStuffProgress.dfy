/**
 What makes nodes move: good proposals are processed, quorums of votes and time-outs take a node to the
 next round, and what honest leaders propose passes verification.
 */
module HotStuffProgress {
  import opened Wrappers
  import opened Committees
  import opened Messages
  import opened Aggregators
  import opened AggregatorCorrectness
  import opened AggregatorRuns
  import opened HotStuffSafety
  import opened HotStuffNode
  import opened HotStuffInvariant
  import opened HotStuffProtocol
  import opened HotStuffBehaviour

  // Proposals are processed

  /** In reachable states a block whose parent is found has its grandparent found. */
  lemma AncestorsOf(c: Committee, w: World, s: NodeState, b: Block) returns (b0: Block, b1: Block)
    requires NodeInv(c, w, s) && !HasNoParent(s.blocks, b)
    ensures IsParent(s.blocks, b, b1) && IsParent(s.blocks, b1, b0)
  {
    AncestorsAreStored(c, w, s.blocks, s.mempool.stored, b);
    b1 := GetParent(s.blocks, b).value;
    b0 := GetParent(s.blocks, b1).value;
  }

  /**
   In every run: a proposal of the right leader that verifies, whose payload and parent are stored, is
   stored, committed and voted on as soon as it arrives.
   */
  lemma GoodProposalIsProcessed(cfg: Config, run: seq<Nodes>, i: nat, h: PublicKey, b: Block,
                                made: Option<PayloadDigest>)
    returns (b0: Block, b1: Block)
    requires Run(cfg, run) && i + 1 < |run| && StepBy(cfg, run[i], run[i + 1], h, Stimulus(Propose(b), made))
    requires b.author == cfg.leader(b.round) && ValidBlock(cfg.committee, b)
    requires (forall p :: p in b.payload ==> p in run[i][h].mempool.stored) && !HasNoParent(run[i][h].blocks, b)
    ensures var s := run[i][h];
      && IsParent(s.blocks, b, b1) && IsParent(s.blocks, b1, b0)
      && Processed(Entered(s, RoundAfter(s.round, b), HigherQC(s.highQc, b.qc)), run[i + 1][h], b0, b1, b)
  {
    RunKeepsInv(cfg, run, i);
    b0, b1 := AncestorsOf(cfg.committee, WorldOf(run[i]), run[i][h], b);
    ProposalOutcome(cfg, run[i][h], b, made, b0, b1);
  }

  /** The same for a block that comes back, which has its payload. */
  lemma LoopedBackIsProcessed(cfg: Config, run: seq<Nodes>, i: nat, h: PublicKey, b: Block, made: Option<PayloadDigest>)
    returns (b0: Block, b1: Block)
    requires Run(cfg, run) && i + 1 < |run| && StepBy(cfg, run[i], run[i + 1], h, Stimulus(LoopBack(b), made))
    requires !HasNoParent(run[i][h].blocks, b)
    ensures var s := run[i][h];
      IsParent(s.blocks, b, b1) && IsParent(s.blocks, b1, b0) && Processed(s, run[i + 1][h], b0, b1, b)
  {
    RunKeepsInv(cfg, run, i);
    b0, b1 := AncestorsOf(cfg.committee, WorldOf(run[i]), run[i][h], b);
    LoopBackOutcome(cfg, run[i][h], b, made, b0, b1);
  }

  // Quorums take a node to the next round

  /** The state after a sequence of events, whatever they are. */
  ghost function After(cfg: Config, start: NodeState, xs: seq<Stimulus>): NodeState {
    if xs == [] then start else React(cfg, After(cfg, start, xs[..|xs| - 1]), xs[|xs| - 1])
  }

  /** What a node asks its aggregator to do in one reaction: to take a message, and to clean up. */
  ghost function Taken(cfg: Config, s: NodeState, e: Event): seq<Operation> {
    match e
    case VoteArrives(v) => if v.round < s.round || !ValidVote(cfg.committee, v) then [] else [AddsVote(v)]
    case TimeoutArrives(m) => if m.round < s.round || !ValidTimeout(cfg.committee, m) then [] else [AddsTimeout(m)]
    case TimerFires => if !ValidTimeout(cfg.committee, NewTimeout(s)) then [] else [AddsTimeout(NewTimeout(s))]
    case _ => []
  }

  ghost function Operations(cfg: Config, start: NodeState, xs: seq<Stimulus>): seq<Operation> {
    if xs == [] then []
    else
      var init, x := xs[..|xs| - 1], xs[|xs| - 1];
      var s := After(cfg, start, init);
      var t := React(cfg, s, x);
      Operations(cfg, start, init) + Taken(cfg, s, x.event) + if t.round > s.round then [CleansUp(t.round)] else []
  }

  lemma PerformOneMore(c: Committee, ops: seq<Operation>, op: Operation)
    ensures PerformAll(c, ops + [op]) == Perform(c, PerformAll(c, ops), op)
  {
    assert (ops + [op])[..|ops|] == ops;
  }

  /** What the aggregator has made of a message: certificates only for the round that the node leaves with it. */
  ghost predicate Matches(cfg: Config, s: NodeState, o: Outcome) {
    && o.state == s.aggregator
    && (forall qc :: qc in o.qcs ==> qc.round < s.round)
    && (forall tc :: tc in o.tcs ==> tc.round < s.round)
  }

  ghost function Follow(cfg: Config, s: NodeState, x: Stimulus, o: Outcome): Outcome {
    var taken, t := Taken(cfg, s, x.event), React(cfg, s, x);
    var o1 := if taken == [] then o else Perform(cfg.committee, o, taken[0]);
    if t.round > s.round then Perform(cfg.committee, o1, CleansUp(t.round)) else o1
  }

  lemma FollowIsPerformed(cfg: Config, s: NodeState, x: Stimulus, ops: seq<Operation>)
    ensures var t := React(cfg, s, x);
      PerformAll(cfg.committee, ops + Taken(cfg, s, x.event) + if t.round > s.round then [CleansUp(t.round)] else []) ==
      Follow(cfg, s, x, PerformAll(cfg.committee, ops))
  {
    var taken, t := Taken(cfg, s, x.event), React(cfg, s, x);
    assert ops + [] == ops;
    if taken != [] {
      assert taken == [taken[0]];
      PerformOneMore(cfg.committee, ops, taken[0]);
    }
    if t.round > s.round {
      PerformOneMore(cfg.committee, ops + taken, CleansUp(t.round));
    } else {
      assert ops + taken + [] == ops + taken;
    }
  }

  lemma VoteTaken(cfg: Config, s: NodeState, t: NodeState, v: Vote, made: Option<PayloadDigest>, o: Outcome)
    requires Matches(cfg, s, o) && v.round >= s.round && VoteCollected(cfg, s, t, v, made)
    ensures var o1 := Perform(cfg.committee, o, AddsVote(v));
      Matches(cfg, t, if t.round > s.round then Perform(cfg.committee, o1, CleansUp(t.round)) else o1)
  {
    CertificateNamesVote(cfg.committee, s.aggregator, v);
  }

  lemma VoteMatches(cfg: Config, s: NodeState, v: Vote, made: Option<PayloadDigest>, o: Outcome)
    requires Matches(cfg, s, o)
    ensures var x := Stimulus(VoteArrives(v), made); Matches(cfg, React(cfg, s, x), Follow(cfg, s, x, o))
  {
    if v.round >= s.round && ValidVote(cfg.committee, v) {
      ValidVoteCollected(cfg, s, v, made);
      VoteTaken(cfg, s, HandleVote(cfg, s, v, made), v, made, o);
    }
  }

  lemma TimeoutTaken(cfg: Config, s: NodeState, m: Timeout, t: NodeState, made: Option<PayloadDigest>, o: Outcome)
    requires Matches(cfg, s, o) && m.round >= s.round && Collected(cfg, s, t, m, made)
    ensures var o1 := Perform(cfg.committee, o, AddsTimeout(m));
      Matches(cfg, t, if t.round > s.round then Perform(cfg.committee, o1, CleansUp(t.round)) else o1)
  {
    CertificateNamesTimeout(cfg.committee, s.aggregator, m);
  }

  lemma TimeoutMatches(cfg: Config, s: NodeState, m: Timeout, made: Option<PayloadDigest>, o: Outcome)
    requires Matches(cfg, s, o)
    ensures var x := Stimulus(TimeoutArrives(m), made); Matches(cfg, React(cfg, s, x), Follow(cfg, s, x, o))
  {
    if m.round >= s.round && ValidTimeout(cfg.committee, m) {
      ValidTimeoutCollected(cfg, s, m, made);
      TimeoutTaken(cfg, s, m, HandleTimeout(cfg, s, m, made), made, o);
    }
  }

  lemma TimerMatches(cfg: Config, s: NodeState, made: Option<PayloadDigest>, o: Outcome)
    requires Matches(cfg, s, o)
    ensures var x := Stimulus(TimerFires, made); Matches(cfg, React(cfg, s, x), Follow(cfg, s, x, o))
  {
    if ValidTimeout(cfg.committee, NewTimeout(s)) {
      ValidTimeoutCollected(cfg, SignTimeout(s), NewTimeout(s), made);
      TimeoutTaken(cfg, SignTimeout(s), NewTimeout(s), LocalTimeoutRound(cfg, s, made), made, o);
    }
  }

  lemma ProposalMatches(cfg: Config, s: NodeState, b: Block, made: Option<PayloadDigest>, o: Outcome)
    requires Matches(cfg, s, o)
    ensures var x := Stimulus(Propose(b), made); Matches(cfg, React(cfg, s, x), Follow(cfg, s, x, o))
  {
    PacemakerOnProposal(cfg, s, b);
    assert Later(s, HandleProposal(cfg, s, b));
  }

  lemma LoopBackMatches(cfg: Config, s: NodeState, b: Block, made: Option<PayloadDigest>, o: Outcome)
    requires Matches(cfg, s, o)
    ensures var x := Stimulus(LoopBack(b), made); Matches(cfg, React(cfg, s, x), Follow(cfg, s, x, o))
  {
    PacemakerWhenProcessing(s, b);
  }

  lemma PacemakerOnProposal(cfg: Config, s: NodeState, b: Block)
    ensures var t := HandleProposal(cfg, s, b);
      t.aggregator == (if t.round > s.round then CleanedUp(s.aggregator, t.round) else s.aggregator)
  {
    CertificatesLead(s, b);
    PacemakerWhenProcessing(ProcessCertificates(s, b), b);
  }

  lemma PacemakerWhenProcessing(s: NodeState, b: Block)
    ensures ProcessOrSuspend(s, b).round == s.round && ProcessOrSuspend(s, b).aggregator == s.aggregator
    ensures ProcessBlock(s, b).round == s.round && ProcessBlock(s, b).aggregator == s.aggregator
  {
  }

  lemma FollowMatches(cfg: Config, s: NodeState, x: Stimulus, o: Outcome)
    requires Matches(cfg, s, o)
    ensures Matches(cfg, React(cfg, s, x), Follow(cfg, s, x, o))
  {
    match x.event
    case VoteArrives(v) => VoteMatches(cfg, s, v, x.made, o);
    case TimeoutArrives(m) => TimeoutMatches(cfg, s, m, x.made, o);
    case TimerFires => TimerMatches(cfg, s, x.made, o);
    case Propose(b) => ProposalMatches(cfg, s, b, x.made, o);
    case LoopBack(b) => LoopBackMatches(cfg, s, b, x.made, o);
    case _ =>
  }

  predicate Fresh(s: NodeState) {
    s.aggregator == AggregatorState(map[], map[])
  }

  lemma {:induction false} HistoryMatches(cfg: Config, start: NodeState, xs: seq<Stimulus>)
    requires Fresh(start)
    ensures Matches(cfg, After(cfg, start, xs), PerformAll(cfg.committee, Operations(cfg, start, xs)))
  {
    if xs != [] {
      var init, x := xs[..|xs| - 1], xs[|xs| - 1];
      HistoryMatches(cfg, start, init);
      FollowIsPerformed(cfg, After(cfg, start, init), x, Operations(cfg, start, init));
      FollowMatches(cfg, After(cfg, start, init), x, PerformAll(cfg.committee, Operations(cfg, start, init)));
    }
  }

  /** The well-formed votes on a block among the events. */
  function HeardVotes(c: Committee, xs: seq<Stimulus>, hash: Digest, round: Round): seq<Vote> {
    if xs == [] then []
    else
      var rest, e := HeardVotes(c, xs[..|xs| - 1], hash, round), xs[|xs| - 1].event;
      if e.VoteArrives? && ValidVote(c, e.vote) && e.vote.hash == hash && e.vote.round == round
      then rest + [e.vote] else rest
  }

  /** The well-formed time-outs of a round among the events, and the node's own ones. */
  ghost function HeardTimeouts(cfg: Config, start: NodeState, xs: seq<Stimulus>, round: Round): seq<Timeout> {
    if xs == [] then []
    else
      var init, e := xs[..|xs| - 1], xs[|xs| - 1].event;
      var rest, own := HeardTimeouts(cfg, start, init, round), NewTimeout(After(cfg, start, init));
      if e.TimeoutArrives? && ValidTimeout(cfg.committee, e.timeout) && e.timeout.round == round then rest + [e.timeout]
      else if e.TimerFires? && ValidTimeout(cfg.committee, own) && own.round == round then rest + [own]
      else rest
  }

  lemma VotesForOneMore(ops: seq<Operation>, op: Operation, hash: Digest, round: Round)
    ensures VotesFor(ops + [op], hash, round) ==
      VotesFor(ops, hash, round) + if VotesOn(op, hash, round) then [op.vote] else []
  {
    assert (ops + [op])[..|ops|] == ops;
  }

  lemma TimeoutsForOneMore(ops: seq<Operation>, op: Operation, round: Round)
    ensures TimeoutsFor(ops + [op], round) ==
      TimeoutsFor(ops, round) + if op.AddsTimeout? && op.timeout.round == round then [op.timeout] else []
  {
    assert (ops + [op])[..|ops|] == ops;
  }

  lemma OperationsOneMore(cfg: Config, s: NodeState, x: Stimulus, ops: seq<Operation>, hash: Digest, round: Round)
    requires React(cfg, s, x).round <= round
    ensures var t := React(cfg, s, x);
      var more := ops + Taken(cfg, s, x.event) + if t.round > s.round then [CleansUp(t.round)] else [];
      var taken := Taken(cfg, s, x.event);
      && VotesFor(more, hash, round) ==
           VotesFor(ops, hash, round) + (if taken != [] && VotesOn(taken[0], hash, round) then [taken[0].vote] else [])
      && TimeoutsFor(more, round) ==
           TimeoutsFor(ops, round)
           + (if taken != [] && taken[0].AddsTimeout? && taken[0].timeout.round == round
              then [taken[0].timeout] else [])
  {
    var taken, t := Taken(cfg, s, x.event), React(cfg, s, x);
    if taken == [] {
      assert ops + taken == ops;
    } else {
      assert taken == [taken[0]];
      VotesForOneMore(ops, taken[0], hash, round);
      TimeoutsForOneMore(ops, taken[0], round);
    }
    if t.round > s.round {
      VotesForOneMore(ops + taken, CleansUp(t.round), hash, round);
      TimeoutsForOneMore(ops + taken, CleansUp(t.round), round);
    } else {
      assert ops + taken + [] == ops + taken;
    }
  }

  lemma TakenIsHeard(cfg: Config, s: NodeState, e: Event, hash: Digest, round: Round)
    requires s.round <= round
    ensures var taken, c := Taken(cfg, s, e), cfg.committee;
      && (taken != [] && VotesOn(taken[0], hash, round) <==>
          e.VoteArrives? && ValidVote(c, e.vote) && e.vote.hash == hash && e.vote.round == round)
      && (taken != [] && taken[0].AddsTimeout? && taken[0].timeout.round == round <==>
          (e.TimeoutArrives? && ValidTimeout(c, e.timeout) && e.timeout.round == round)
          || (e.TimerFires? && ValidTimeout(c, NewTimeout(s)) && NewTimeout(s).round == round))
  {
  }

  /** While the node has not left a round, all that it heard of that round is with its aggregator. */
  lemma {:induction false} HeardIsTaken(cfg: Config, start: NodeState, xs: seq<Stimulus>, hash: Digest, round: Round)
    requires After(cfg, start, xs).round <= round
    ensures VotesFor(Operations(cfg, start, xs), hash, round) == HeardVotes(cfg.committee, xs, hash, round)
    ensures TimeoutsFor(Operations(cfg, start, xs), round) == HeardTimeouts(cfg, start, xs, round)
  {
    if xs != [] {
      var init, x := xs[..|xs| - 1], xs[|xs| - 1];
      var s := After(cfg, start, init);
      assert Later(s, React(cfg, s, x));
      HeardIsTaken(cfg, start, init, hash, round);
      OperationsOneMore(cfg, s, x, Operations(cfg, start, init), hash, round);
      TakenIsHeard(cfg, s, x.event, hash, round);
    }
  }

  lemma TakenIsVerified(cfg: Config, s: NodeState, e: Event)
    ensures Verified(cfg.committee, Taken(cfg, s, e)) && forall op :: op in Taken(cfg, s, e) ==> !op.CleansUp?
  {
  }

  lemma OrderOneMore(c: Committee, ops: seq<Operation>, taken: seq<Operation>, round: Round, round': Round)
    requires Verified(c, ops) && Keeps(ops, round) && round <= round'
    requires Verified(c, taken) && forall op :: op in taken ==> !op.CleansUp?
    ensures var more := ops + taken + if round' > round then [CleansUp(round')] else [];
      Verified(c, more) && Keeps(more, round')
  {
  }

  lemma {:induction false} OperationsAreInOrder(cfg: Config, start: NodeState, xs: seq<Stimulus>)
    ensures Verified(cfg.committee, Operations(cfg, start, xs))
    ensures Keeps(Operations(cfg, start, xs), After(cfg, start, xs).round)
  {
    if xs != [] {
      var init, x := xs[..|xs| - 1], xs[|xs| - 1];
      var s, t := After(cfg, start, init), After(cfg, start, xs);
      OperationsAreInOrder(cfg, start, init);
      TakenIsVerified(cfg, s, x.event);
      assert Later(s, t);
      OrderOneMore(cfg.committee, Operations(cfg, start, init), Taken(cfg, s, x.event), s.round, t.round);
    }
  }

  lemma {:induction false} CertificatesAreMade(qcs: seq<QC>, hash: Digest, round: Round)
    ensures CertificatesFor(qcs, hash, round) != [] ==> exists qc :: qc in qcs && qc.round == round
  {
    if qcs != [] {
      CertificatesAreMade(qcs[..|qcs| - 1], hash, round);
      assert qcs[|qcs| - 1] in qcs;
    }
  }

  lemma {:induction false} TimeoutCertificatesAreMade(tcs: seq<TC>, round: Round)
    ensures TimeoutCertificatesFor(tcs, round) != [] ==> exists tc :: tc in tcs && tc.round == round
  {
    if tcs != [] {
      TimeoutCertificatesAreMade(tcs[..|tcs| - 1], round);
      assert tcs[|tcs| - 1] in tcs;
    }
  }

  /**
   A node that has heard verified votes of a quorum on one block has left the block's round, whatever
   else it heard in between and in whatever order.
   */
  lemma {:induction false} QuorumOfVotesAdvances(cfg: Config, start: NodeState, xs: seq<Stimulus>,
                                                 hash: Digest, round: Round)
    requires cfg.committee.Sound() && Fresh(start)
    requires cfg.committee.StakeOf(Authors(HeardVotes(cfg.committee, xs, hash, round))) >= cfg.committee.Quorum()
    ensures After(cfg, start, xs).round > round
  {
    if After(cfg, start, xs).round <= round {
      var ops := Operations(cfg, start, xs);
      HistoryMatches(cfg, start, xs);
      HeardIsTaken(cfg, start, xs, hash, round);
      OperationsAreInOrder(cfg, start, xs);
      AggregatorCertifiesAtQuorum(cfg.committee, ops, hash, round);
      var qcs := PerformAll(cfg.committee, ops).qcs;
      CertificatesAreMade(qcs, hash, round);
    }
  }

  /** The same for time-outs of a quorum, the node's own one included. */
  lemma {:induction false} QuorumOfTimeoutsAdvances(cfg: Config, start: NodeState, xs: seq<Stimulus>, round: Round)
    requires cfg.committee.Sound() && Fresh(start)
    requires cfg.committee.StakeOf(TimeoutAuthors(HeardTimeouts(cfg, start, xs, round))) >= cfg.committee.Quorum()
    ensures After(cfg, start, xs).round > round
  {
    if After(cfg, start, xs).round <= round {
      var ops := Operations(cfg, start, xs);
      HistoryMatches(cfg, start, xs);
      HeardIsTaken(cfg, start, xs, Zero, round);
      OperationsAreInOrder(cfg, start, xs);
      AggregatorCertifiesTimeoutsAtQuorum(cfg.committee, ops, round);
      var tcs := PerformAll(cfg.committee, ops).tcs;
      TimeoutCertificatesAreMade(tcs, round);
    }
  }
}
