/**
 What the extractor decides, said on the ledger itself: an iteration ends with the entry after which the
 last votes of enough members agree, and the decision is what they agree on.
 */
module CheckpointCounting {
  import opened Wrappers
  import opened Committees
  import opened LcBlocks
  import opened CheckpointExtractor

  /** The entry is from a member, who signed what it says. */
  predicate Authentic(c: Committee, entry: LedgerEntry) {
    entry.Entry? && c.Stake(entry.tx.author) > 0 && entry.tx.signature == SignedAction(entry.tx.author, entry.tx.action)
  }

  /** The vote of the entry in the iteration, if it is one. */
  function VoteIn(c: Committee, entry: LedgerEntry, i: nat): Option<Vote> {
    if !Authentic(c, entry) then None
    else if entry.tx.action.Accept? && entry.tx.action.iteration == i then Some(AcceptVote(entry.tx.action.block))
    else if entry.tx.action == Reject(i) then Some(RejectVote)
    else None
  }

  /** A member's last vote in the iteration. */
  function LastVote(c: Committee, entries: seq<LedgerEntry>, i: nat, k: PublicKey): Option<Vote> {
    if entries == [] then None
    else
      var last := entries[|entries| - 1];
      if VoteIn(c, last, i).Some? && last.tx.author == k then VoteIn(c, last, i)
      else LastVote(c, entries[..|entries| - 1], i, k)
  }

  /** The members whose last vote in the iteration is this one. */
  function Standing(c: Committee, entries: seq<LedgerEntry>, i: nat, v: Vote): set<PublicKey> {
    set k | k in c.authorities && LastVote(c, entries, i, k) == Some(v)
  }

  /** More than two thirds of the members stand for the block, or at least one third stands for rejection. */
  predicate Agreed(c: Committee, entries: seq<LedgerEntry>, i: nat, decision: Option<LcDigest>) {
    if decision.Some? then 3 * |Standing(c, entries, i, AcceptVote(decision.value))| > 2 * |c.authorities|
    else 3 * |Standing(c, entries, i, RejectVote)| >= |c.authorities|
  }

  /** The entries since the current iteration began. */
  ghost function Since(c: Committee, ledger: seq<LedgerEntry>): seq<LedgerEntry> {
    if ledger == [] then []
    else
      var init := ledger[..|ledger| - 1];
      if Extract(c, ledger).1 != Extract(c, init).1 then [] else Since(c, init) + [ledger[|ledger| - 1]]
  }

  /** The votes that are counted are the members' last votes since the iteration began. */
  ghost predicate CountsLast(c: Committee, votes: map<PublicKey, Vote>, entries: seq<LedgerEntry>, i: nat) {
    forall k :: LastVote(c, entries, i, k) == if k in votes then Some(votes[k]) else None
  }

  lemma LastVoteOneMore(c: Committee, entries: seq<LedgerEntry>, entry: LedgerEntry, i: nat, k: PublicKey)
    ensures LastVote(c, entries + [entry], i, k) ==
      if VoteIn(c, entry, i).Some? && entry.tx.author == k then VoteIn(c, entry, i) else LastVote(c, entries, i, k)
  {
    assert (entries + [entry])[..|entries|] == entries;
  }

  lemma CountingKeepsLast(c: Committee, s: ExtractorState, entries: seq<LedgerEntry>, entry: LedgerEntry)
    requires CountsLast(c, s.votes, entries, s.iteration)
    ensures CountsLast(c, if Authentic(c, entry) then Count(s, entry.tx) else s.votes, entries + [entry], s.iteration)
  {
    forall k {
      LastVoteOneMore(c, entries, entry, s.iteration, k);
    }
  }

  lemma StandingAreVoters(c: Committee, votes: map<PublicKey, Vote>, entries: seq<LedgerEntry>, i: nat, v: Vote)
    requires CountsLast(c, votes, entries, i) && VotersAreMembers(c, votes)
    ensures Standing(c, entries, i, v) == Voters(votes, v)
  {
  }

  lemma AgreedIsEnabled(c: Committee, votes: map<PublicKey, Vote>, entries: seq<LedgerEntry>, i: nat,
                        decision: Option<LcDigest>)
    requires CountsLast(c, votes, entries, i) && VotersAreMembers(c, votes)
    ensures Agreed(c, entries, i, decision) <==> Enabled(c, votes, decision)
  {
    StandingAreVoters(c, votes, entries, i, if decision.Some? then AcceptVote(decision.value) else RejectVote);
  }

  /** One entry, with the thresholds in full: the iteration ends exactly when the last votes agree. */
  lemma StepDecides(c: Committee, s: ExtractorState, entries: seq<LedgerEntry>, entry: LedgerEntry, d: Option<LcDigest>)
    requires VotersAreMembers(c, s.votes) && CountsLast(c, s.votes, entries, s.iteration)
    ensures var (t, events) := Step(c, s, entry);
      if !Authentic(c, entry) then t == s && events == []
      else if Agreed(c, entries + [entry], s.iteration, d)
      then t == ExtractorState(s.iteration + 1, map[]) && events == [NewCheckpoint(s.iteration, d)]
      else events != [NewCheckpoint(s.iteration, d)]
    ensures var (t, events) := Step(c, s, entry);
      events == [] && Authentic(c, entry) ==>
        t == ExtractorState(s.iteration, t.votes) && CountsLast(c, t.votes, entries + [entry], s.iteration)
    ensures var events := Step(c, s, entry).1;
      events == [] || exists e: Option<LcDigest> :: events == [NewCheckpoint(s.iteration, e)]
  {
    if Authentic(c, entry) {
      var votes := Count(s, entry.tx);
      CountingKeepsLast(c, s, entries, entry);
      OneDecision(c, votes);
      AgreedIsEnabled(c, votes, entries + [entry], s.iteration, d);
    }
  }

  /** In every reachable state the extractor counts the members' last votes since the iteration began. */
  lemma {:induction false} CountedVotesAreLast(c: Committee, ledger: seq<LedgerEntry>)
    ensures var s := Extract(c, ledger).0; CountsLast(c, s.votes, Since(c, ledger), s.iteration)
  {
    if ledger != [] {
      var init, last := ledger[..|ledger| - 1], ledger[|ledger| - 1];
      var s := Extract(c, init).0;
      CountedVotesAreLast(c, init);
      ExtractMembers(c, init);
      CountingKeepsLast(c, s, Since(c, init), last);
      StepDecides(c, s, Since(c, init), last, None);
    }
  }

  /**
   One more entry ends the iteration with a decision if and only if, counting it, the last votes since the
   iteration began agree on that decision; a malformed entry does nothing.
   */
  lemma EntryDecidesIff(c: Committee, ledger: seq<LedgerEntry>, entry: LedgerEntry, d: Option<LcDigest>)
    ensures var (s, events) := Extract(c, ledger);
      Extract(c, ledger + [entry]).1 == events + [NewCheckpoint(s.iteration, d)] <==>
      Authentic(c, entry) && Agreed(c, Since(c, ledger) + [entry], s.iteration, d)
    ensures var (s, events) := Extract(c, ledger);
      Extract(c, ledger + [entry]).1 == events
      || exists e: Option<LcDigest> :: Extract(c, ledger + [entry]).1 == events + [NewCheckpoint(s.iteration, e)]
  {
    var (s, events) := Extract(c, ledger);
    assert (ledger + [entry])[..|ledger|] == ledger;
    CountedVotesAreLast(c, ledger);
    ExtractMembers(c, ledger);
    StepDecides(c, s, Since(c, ledger), entry, d);
    SameRest(events, Step(c, s, entry).1, [NewCheckpoint(s.iteration, d)]);
  }

  lemma SameRest(events: seq<CheckpointEvent>, more: seq<CheckpointEvent>, other: seq<CheckpointEvent>)
    ensures events + more == events + other <==> more == other
  {
    assert (events + more)[|events|..] == more && (events + other)[|events|..] == other;
  }

  /** Every decision in a ledger was made at an entry with which the last votes of that iteration agreed on it. */
  lemma {:induction false} DecisionHasMoment(c: Committee, ledger: seq<LedgerEntry>, p: nat) returns (m: nat)
    requires p < |Extract(c, ledger).1| && Extract(c, ledger).1[p].NewCheckpoint?
    ensures m < |ledger| && Authentic(c, ledger[m]) && |Extract(c, ledger[..m]).1| == p
    ensures Agreed(c, Since(c, ledger[..m]) + [ledger[m]], p, Extract(c, ledger).1[p].decision)
    decreases |ledger|
  {
    var init, last := ledger[..|ledger| - 1], ledger[|ledger| - 1];
    EventsAreNumbered(c, init);
    assert ledger == init + [last];
    if p < |Extract(c, init).1| {
      m := DecisionHasMoment(c, init, p);
      assert init[..m] == ledger[..m];
    } else {
      m := |init|;
      assert ledger[..m] == init;
      EntryDecidesIff(c, init, last, Extract(c, ledger).1[p].decision);
    }
  }

  /** A rejection was supported by a third of the members, whose signed votes are in the ledger. */
  lemma RejectionHasVotes(c: Committee, ledger: seq<LedgerEntry>, p: nat)
    requires p < |Extract(c, ledger).1| && Extract(c, ledger).1[p] == NewCheckpoint(p, None)
    ensures 3 * |Rejecters(c, ledger, p)| >= |c.authorities|
  {
    var m := DecisionHasMoment(c, ledger, p);
    var window := Since(c, ledger[..m]) + [ledger[m]];
    SinceIsInLedger(c, ledger[..m]);
    forall k | k in Standing(c, window, p, RejectVote) ensures k in Rejecters(c, ledger, p) {
      LastVoteIsInEntries(c, window, p, k);
      var entry :| entry in window && VoteIn(c, entry, p) == Some(RejectVote) && entry.tx.author == k;
      assert entry in ledger;
    }
    SubsetSize(Standing(c, window, p, RejectVote), Rejecters(c, ledger, p));
  }

  ghost function Rejecters(c: Committee, ledger: seq<LedgerEntry>, p: nat): set<PublicKey> {
    set k | k in c.authorities && HasRejected(c, ledger, p, k)
  }

  predicate HasRejected(c: Committee, ledger: seq<LedgerEntry>, p: nat, k: PublicKey) {
    exists entry :: entry in ledger && Authentic(c, entry) && entry.tx.author == k && entry.tx.action == Reject(p)
  }

  lemma {:induction false} SinceIsInLedger(c: Committee, ledger: seq<LedgerEntry>)
    ensures forall entry :: entry in Since(c, ledger) ==> entry in ledger
  {
    if ledger != [] {
      SinceIsInLedger(c, ledger[..|ledger| - 1]);
    }
  }

  lemma {:induction false} LastVoteIsInEntries(c: Committee, entries: seq<LedgerEntry>, i: nat, k: PublicKey)
    requires LastVote(c, entries, i, k).Some?
    ensures exists entry ::
      entry in entries && VoteIn(c, entry, i) == LastVote(c, entries, i, k) && entry.tx.author == k
  {
    var last := entries[|entries| - 1];
    if VoteIn(c, last, i).Some? && last.tx.author == k {
      assert last in entries;
    } else {
      LastVoteIsInEntries(c, entries[..|entries| - 1], i, k);
    }
  }
}
