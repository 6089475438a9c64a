/**
 The checkpoint extractor: it reads votes from the ledger and decides, iteration after iteration,
 on a checkpoint or on none.
 */
module CheckpointExtractor {
  import opened Wrappers
  import opened Committees
  import opened LcBlocks

  datatype CheckpointAction =
    | Propose(iteration: nat, block: LcDigest)
    | Accept(iteration: nat, block: LcDigest)
    | Reject(iteration: nat)

  datatype ActionSignature = NoSignature | SignedAction(signer: PublicKey, action: CheckpointAction)

  datatype CheckpointTransaction =
    CheckpointTransaction(author: PublicKey, action: CheckpointAction, signature: ActionSignature)

  /** An entry of the ledger, which may fail to deserialize. */
  datatype LedgerEntry = Garbage | Entry(tx: CheckpointTransaction)

  datatype CheckpointEvent =
    | NewProposal(iteration: nat, block: LcDigest)
    | NewCheckpoint(iteration: nat, decision: Option<LcDigest>)

  datatype Vote = RejectVote | AcceptVote(block: LcDigest)

  datatype ExtractorState = ExtractorState(iteration: nat, votes: map<PublicKey, Vote>)

  const START := ExtractorState(0, map[])

  predicate WellSigned(c: Committee, tx: CheckpointTransaction) {
    c.Stake(tx.author) > 0 && tx.signature == SignedAction(tx.author, tx.action)
  }

  // Deciding

  function Voters(votes: map<PublicKey, Vote>, v: Vote): set<PublicKey> {
    set k | k in votes && votes[k] == v
  }

  /** More than two thirds accept the block, or at least one third rejects. */
  predicate Enabled(c: Committee, votes: map<PublicKey, Vote>, decision: Option<LcDigest>) {
    match decision
    case Some(b) => 3 * |Voters(votes, AcceptVote(b))| > 2 * |c.authorities|
    case None => 3 * |Voters(votes, RejectVote)| >= |c.authorities|
  }

  predicate VotersAreMembers(c: Committee, votes: map<PublicKey, Vote>) {
    votes.Keys <= c.authorities.Keys
  }

  ghost predicate Undecided(c: Committee, votes: map<PublicKey, Vote>) {
    forall decision :: !Enabled(c, votes, decision)
  }

  /** How a vote of the ledger changes the votes of the current iteration: a later one replaces an earlier one. */
  function Count(s: ExtractorState, tx: CheckpointTransaction): map<PublicKey, Vote> {
    match tx.action
    case Accept(i, b) => if i == s.iteration then s.votes[tx.author := AcceptVote(b)] else s.votes
    case Reject(i) => if i == s.iteration then s.votes[tx.author := RejectVote] else s.votes
    case Propose(_, _) => s.votes
  }

  ghost function Step(c: Committee, s: ExtractorState, entry: LedgerEntry): (ExtractorState, seq<CheckpointEvent>) {
    if entry.Garbage? || !WellSigned(c, entry.tx) then (s, [])
    else
      var votes := Count(s, entry.tx);
      if Undecided(c, votes) then (s.(votes := votes), [])
      else
        var decision :| Enabled(c, votes, decision);
        (ExtractorState(s.iteration + 1, map[]), [NewCheckpoint(s.iteration, decision)])
  }

  /** The extractor's state and events after a ledger. */
  ghost function Extract(c: Committee, ledger: seq<LedgerEntry>): (ExtractorState, seq<CheckpointEvent>) {
    if ledger == [] then (START, [])
    else
      var (s, events) := Extract(c, ledger[..|ledger| - 1]);
      var (s', more) := Step(c, s, ledger[|ledger| - 1]);
      (s', events + more)
  }

  method ExtractCheckpoints(c: Committee, ledger: seq<LedgerEntry>) returns (events: seq<CheckpointEvent>)
    ensures events == Extract(c, ledger).1
  {
    events := [];
    var position, currentIteration := 0, 0;
    while position < |ledger|
      invariant 0 <= position <= |ledger|
      invariant position < |ledger| ==> Extract(c, ledger[..position]).0 == ExtractorState(currentIteration, map[])
      invariant Extract(c, ledger[..position]).1 == events
    {
      var currentVotes: map<PublicKey, Vote> := map[];
      var over := false;
      while position < |ledger| && !over
        invariant 0 <= position <= |ledger|
        invariant Extract(c, ledger[..position]).1 == events
        invariant Extract(c, ledger[..position]).0 ==
          if over then ExtractorState(currentIteration + 1, map[]) else ExtractorState(currentIteration, currentVotes)
        decreases |ledger| - position
      {
        ExtractOneMore(c, ledger, position);
        ExtractMembers(c, ledger[..position]);
        var decision;
        currentVotes, decision := CountEntry(c, currentIteration, currentVotes, ledger[position]);
        position := position + 1;
        if decision.Some? {
          events := events + [NewCheckpoint(currentIteration, decision.value)];
          over := true;
        }
      }
      currentIteration := currentIteration + 1;
    }
    assert ledger[..|ledger|] == ledger;
  }

  /** One entry of the ledger: malformed ones are skipped, and a vote may decide the iteration. */
  method CountEntry(c: Committee, iteration: nat, votes: map<PublicKey, Vote>, entry: LedgerEntry)
    returns (counted: map<PublicKey, Vote>, decision: Option<Option<LcDigest>>)
    requires VotersAreMembers(c, votes)
    ensures Step(c, ExtractorState(iteration, votes), entry) ==
      if decision.None? then (ExtractorState(iteration, counted), [])
      else (ExtractorState(iteration + 1, map[]), [NewCheckpoint(iteration, decision.value)])
  {
    if entry.Garbage? || !WellSigned(c, entry.tx) {
      return votes, None;
    }
    counted := Count(ExtractorState(iteration, votes), entry.tx);
    decision := FindDecision(c, counted);
  }

  /** In whatever order the accepted blocks are tried, the one possible decision is found. */
  method FindDecision(c: Committee, votes: map<PublicKey, Vote>) returns (decision: Option<Option<LcDigest>>)
    requires VotersAreMembers(c, votes)
    ensures decision.None? <==> Undecided(c, votes)
    ensures decision.Some? ==> forall d :: Enabled(c, votes, d) <==> d == decision.value
  {
    OneDecision(c, votes);
    var rest := set k | k in votes && votes[k].AcceptVote? :: votes[k].block;
    while rest != {}
      invariant forall k :: k in votes && votes[k].AcceptVote? ==>
        votes[k].block in rest || !Enabled(c, votes, Some(votes[k].block))
    {
      var b :| b in rest;
      if 3 * |Voters(votes, AcceptVote(b))| > 2 * |c.authorities| {
        assert Enabled(c, votes, Some(b));
        return Some(Some(b));
      }
      rest := rest - {b};
    }
    forall b ensures !Enabled(c, votes, Some(b)) {
      if Voters(votes, AcceptVote(b)) != {} {
        var k :| k in Voters(votes, AcceptVote(b));
        assert votes[k].block == b;
      }
    }
    if 3 * |Voters(votes, RejectVote)| >= |c.authorities| {
      assert Enabled(c, votes, None);
      return Some(None);
    }
    return None;
  }

  // The last checkpoint

  /** The last checkpoint among the first `n` decisions, or the genesis block. */
  function Latest(events: seq<CheckpointEvent>, n: nat): LcDigest
    requires n <= |events|
  {
    if n == 0 then GENESIS_LC
    else if events[n - 1].NewCheckpoint? && events[n - 1].decision.Some? then events[n - 1].decision.value
    else Latest(events, n - 1)
  }

  lemma {:induction false} LatestOfLonger(events: seq<CheckpointEvent>, longer: seq<CheckpointEvent>, n: nat)
    requires events <= longer && n <= |events|
    ensures Latest(events, n) == Latest(longer, n)
  {
    if n > 0 {
      LatestOfLonger(events, longer, n - 1);
    }
  }

  lemma LatestOfOneMore(events: seq<CheckpointEvent>, e: CheckpointEvent)
    ensures Latest(events + [e], |events| + 1) ==
      if e.NewCheckpoint? && e.decision.Some? then e.decision.value else Latest(events, |events|)
  {
    LatestOfLonger(events, events + [e], |events|);
  }

  // At most one outcome

  lemma DisjointVoters(c: Committee, votes: map<PublicKey, Vote>, v: Vote, u: Vote)
    requires VotersAreMembers(c, votes) && v != u
    ensures |Voters(votes, v)| + |Voters(votes, u)| <= |c.authorities|
  {
    var a, b := Voters(votes, v), Voters(votes, u);
    assert |a + b| == |a| + |b|;
    SubsetSize(a + b, c.authorities.Keys);
  }

  lemma {:induction false} SubsetSize<T>(s: set<T>, t: set<T>)
    requires s <= t
    ensures |s| <= |t|
  {
    if s != {} {
      var x :| x in s;
      SubsetSize(s - {x}, t - {x});
    }
  }

  /** Never two blocks, and never a block together with a rejection. */
  lemma OneDecision(c: Committee, votes: map<PublicKey, Vote>)
    requires VotersAreMembers(c, votes)
    ensures forall d, e :: Enabled(c, votes, d) && Enabled(c, votes, e) ==> d == e
  {
    forall d, e | Enabled(c, votes, d) && Enabled(c, votes, e) && d != e ensures false {
      DisjointVoters(c, votes, if d.Some? then AcceptVote(d.value) else RejectVote,
                     if e.Some? then AcceptVote(e.value) else RejectVote);
    }
  }

  /** When all members have voted, each for rejection or for one and the same block, it is decided. */
  lemma UnanimityDecides(c: Committee, votes: map<PublicKey, Vote>, b: LcDigest)
    requires votes.Keys == c.authorities.Keys
    requires forall k :: k in votes ==> votes[k] in {RejectVote, AcceptVote(b)}
    ensures Enabled(c, votes, Some(b)) || Enabled(c, votes, None)
  {
    var a, r := Voters(votes, AcceptVote(b)), Voters(votes, RejectVote);
    assert a + r == c.authorities.Keys;
    assert |a + r| == |a| + |r|;
  }

  // Reachable states

  lemma ExtractOneMore(c: Committee, ledger: seq<LedgerEntry>, i: nat)
    requires i < |ledger|
    ensures var (s, events) := Extract(c, ledger[..i]);
      Extract(c, ledger[..i + 1]) == (Step(c, s, ledger[i]).0, events + Step(c, s, ledger[i]).1)
  {
    var shorter := ledger[..i + 1];
    assert shorter[..|shorter| - 1] == ledger[..i];
  }

  /** Only members' votes are counted, and an iteration goes on only while nothing is decided. */
  lemma {:induction false} ExtractMembers(c: Committee, ledger: seq<LedgerEntry>)
    ensures VotersAreMembers(c, Extract(c, ledger).0.votes)
    ensures Extract(c, ledger).0.votes != map[] ==> Undecided(c, Extract(c, ledger).0.votes)
  {
    if ledger != [] {
      ExtractMembers(c, ledger[..|ledger| - 1]);
    }
  }

  /** While an iteration goes on and all members have voted, no block has the votes that are not rejections. */
  lemma IterationEndsByUnanimity(c: Committee, ledger: seq<LedgerEntry>, b: LcDigest)
    requires c.authorities != map[]
    ensures var votes := Extract(c, ledger).0.votes;
      votes.Keys == c.authorities.Keys ==> exists k :: k in votes && votes[k] !in {RejectVote, AcceptVote(b)}
  {
    var votes := Extract(c, ledger).0.votes;
    ExtractMembers(c, ledger);
    if votes.Keys == c.authorities.Keys && forall k :: k in votes ==> votes[k] in {RejectVote, AcceptVote(b)} {
      UnanimityDecides(c, votes, b);
    }
  }

  /** Events are numbered 0, 1, 2, ... and the current iteration is the next number. */
  lemma {:induction false} EventsAreNumbered(c: Committee, ledger: seq<LedgerEntry>)
    ensures Extract(c, ledger).0.iteration == |Extract(c, ledger).1|
    ensures forall i :: 0 <= i < |Extract(c, ledger).1| ==>
      Extract(c, ledger).1[i].NewCheckpoint? && Extract(c, ledger).1[i].iteration == i
  {
    if ledger != [] {
      EventsAreNumbered(c, ledger[..|ledger| - 1]);
    }
  }

  /** A longer ledger only appends events. */
  lemma {:induction false} LongerLedgerAppends(c: Committee, shorter: seq<LedgerEntry>, ledger: seq<LedgerEntry>)
    requires shorter <= ledger
    ensures Extract(c, shorter).1 <= Extract(c, ledger).1
    decreases |ledger|
  {
    if shorter != ledger {
      LongerLedgerAppends(c, shorter, ledger[..|ledger| - 1]);
    }
  }

  /** A decided block was accepted by more than two thirds of the members, whose votes are in the ledger. */
  lemma {:induction false} DecisionHasVotes(c: Committee, ledger: seq<LedgerEntry>, i: nat)
    requires i < |Extract(c, ledger).1| && Extract(c, ledger).1[i].NewCheckpoint?
    requires Extract(c, ledger).1[i].decision.Some?
    ensures var b := Extract(c, ledger).1[i].decision.value;
      3 * |Accepters(c, ledger, i, b)| > 2 * |c.authorities|
    decreases |ledger|
  {
    var init := ledger[..|ledger| - 1];
    EventsAreNumbered(c, init);
    var b := Extract(c, ledger).1[i].decision.value;
    if i < |Extract(c, init).1| {
      DecisionHasVotes(c, init, i);
      SubsetSize(Accepters(c, init, i, b), Accepters(c, ledger, i, b));
    } else {
      var s := Extract(c, init).0;
      var votes := Count(s, ledger[|ledger| - 1].tx);
      VotesAreInLedger(c, init);
      SubsetSize(Voters(votes, AcceptVote(b)), Accepters(c, ledger, i, b));
    }
  }

  /** The members with a well-signed vote for the block in the ledger. */
  ghost function Accepters(c: Committee, ledger: seq<LedgerEntry>, i: nat, b: LcDigest): set<PublicKey> {
    set k | k in c.authorities && HasAccepted(c, ledger, i, b, k)
  }

  ghost predicate HasAccepted(c: Committee, ledger: seq<LedgerEntry>, i: nat, b: LcDigest, k: PublicKey) {
    exists tx :: Entry(tx) in ledger && WellSigned(c, tx) && tx.author == k && tx.action == Accept(i, b)
  }

  lemma {:induction false} VotesAreInLedger(c: Committee, ledger: seq<LedgerEntry>)
    ensures var s := Extract(c, ledger).0; forall k :: k in s.votes && s.votes[k].AcceptVote? ==>
      k in c.authorities && HasAccepted(c, ledger, s.iteration, s.votes[k].block, k)
  {
    if ledger != [] {
      var init, last := ledger[..|ledger| - 1], ledger[|ledger| - 1];
      VotesAreInLedger(c, init);
      var s, t := Extract(c, init).0, Extract(c, ledger).0;
      forall k | k in t.votes && t.votes[k].AcceptVote?
        ensures k in c.authorities && HasAccepted(c, ledger, t.iteration, t.votes[k].block, k)
      {
        if k in s.votes && s.votes[k] == t.votes[k] {
          var tx :| Entry(tx) in init && WellSigned(c, tx) && tx.author == k
                    && tx.action == Accept(s.iteration, s.votes[k].block);
          assert Entry(tx) in ledger;
        } else {
          assert Entry(last.tx) in ledger;
        }
      }
    }
  }
}
