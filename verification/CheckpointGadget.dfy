/**
 The checkpoint gadget as a whole: honest members read a common ledger, follow the decisions in their
 block trees, and vote on proposals that they have validated. Decided checkpoints form a chain.

 The common ledger is what consensus provides; the adversary may put anything into it except forged
 signatures of honest members.
 */
module CheckpointGadget {
  import opened Wrappers
  import opened Committees
  import opened LcBlocks
  import opened LcBlockTreeManagers
  import opened CheckpointExtractor
  import Proposer = CheckpointProposer

  /** `read` entries of the ledger are extracted, `adopted` decisions have reached the tree manager. */
  datatype Member = Member(read: nat, adopted: nat, tree: set<LcDigest>, proposer: Proposer.ProposerState)

  datatype System = System(ledger: seq<LedgerEntry>, members: map<PublicKey, Member>)

  datatype Config = Config(
    committee: Committee,
    less: Order,
    leader: nat -> PublicKey,
    boycott: set<PublicKey>)
  {
    function Of(k: PublicKey): Proposer.Config {
      Proposer.Config(k, leader, k in boycott)
    }
  }

  /** Fewer than a third of the members are Byzantine. */
  predicate Sound(cfg: Config, honest: set<PublicKey>) {
    3 * |cfg.committee.authorities.Keys - honest| < |cfg.committee.authorities|
  }

  // Checkpoints

  ghost predicate Chained(events: seq<CheckpointEvent>) {
    forall m, n :: 0 <= m <= n <= |events| ==> Prefix(Latest(events, m), Latest(events, n))
  }

  lemma ChainStays(events: seq<CheckpointEvent>, longer: seq<CheckpointEvent>, m: nat, n: nat)
    requires Chained(events) && events <= longer && m <= n <= |events|
    ensures Prefix(Latest(longer, m), Latest(longer, n))
  {
    LatestOfLonger(events, longer, m);
    LatestOfLonger(events, longer, n);
  }

  lemma ChainExtends(events: seq<CheckpointEvent>, e: CheckpointEvent, m: nat)
    requires Chained(events) && m <= |events|
    requires e.NewCheckpoint? && e.decision.Some? ==> Prefix(Latest(events, |events|), e.decision.value)
    ensures Prefix(Latest(events + [e], m), Latest(events + [e], |events| + 1))
  {
    LatestOfOneMore(events, e);
    LatestOfLonger(events, events + [e], m);
    PrefixTransitive(Latest(events, m), Latest(events, |events|), Latest(events + [e], |events| + 1));
  }

  lemma ChainGrowsAt(events: seq<CheckpointEvent>, e: CheckpointEvent, m: nat, n: nat)
    requires Chained(events) && m <= n <= |events| + 1
    requires e.NewCheckpoint? && e.decision.Some? ==> Prefix(Latest(events, |events|), e.decision.value)
    ensures Prefix(Latest(events + [e], m), Latest(events + [e], n))
  {
    if n <= |events| {
      ChainStays(events, events + [e], m, n);
    } else if m <= |events| {
      ChainExtends(events, e, m);
    }
  }

  lemma ChainGrows(events: seq<CheckpointEvent>, e: CheckpointEvent)
    requires Chained(events)
    requires e.NewCheckpoint? && e.decision.Some? ==> Prefix(Latest(events, |events|), e.decision.value)
    ensures Chained(events + [e])
  {
    forall m, n | 0 <= m <= n <= |events| + 1 ensures Prefix(Latest(events + [e], m), Latest(events + [e], n)) {
      ChainGrowsAt(events, e, m, n);
    }
  }

  // Steps

  datatype LocalMove = Read | Adopt | AddBlock(block: LcDigest) | Turn(x: Proposer.Stimulus)

  /** Consensus delivers some more entries, or a member moves. */
  datatype Move = Deliver(more: seq<LedgerEntry>) | Local(k: PublicKey, move: LocalMove)

  /** The events that the member has extracted. */
  ghost function Events(c: Committee, ledger: seq<LedgerEntry>, m: Member): seq<CheckpointEvent>
    requires m.read <= |ledger|
  {
    Extract(c, ledger[..m.read]).1
  }

  /** Honest members' signatures in the ledger are on what they have signed. */
  predicate Genuine(members: map<PublicKey, Member>, entry: LedgerEntry) {
    entry.Entry? && entry.tx.signature.SignedAction? && entry.tx.signature.signer in members ==>
      entry.tx.signature.action in members[entry.tx.signature.signer].proposer.signed
  }

  /** The tree manager's answers, and the decisions in their order; a decision precedes later votes. */
  ghost predicate Answered(cfg: Config, ledger: seq<LedgerEntry>, m: Member, x: Proposer.Stimulus)
    requires m.read <= |ledger|
  {
    var events := Events(cfg.committee, ledger, m);
    match x.input
    case Timer => true
    case Slot =>
      && m.proposer.iteration <= m.adopted <= |events|
      && TotalOrder(cfg.less)
      && Latest(events, m.adopted) in m.tree
      && (m.proposer.slot.Some? ==>
          (x.valid <==> Validates(cfg.less, m.tree, Latest(events, m.adopted), m.proposer.slot.value)))
    case Arrives(event) =>
      event.NewCheckpoint? ==> m.proposer.iteration < |events| && event == events[m.proposer.iteration]
  }

  ghost predicate CanMove(cfg: Config, ledger: seq<LedgerEntry>, m: Member, move: LocalMove) {
    && m.read <= |ledger|
    && match move
       case Read => m.read < |ledger|
       case Adopt => m.adopted < |Events(cfg.committee, ledger, m)|
       case AddBlock(block) => block.parent.Some? && block.parent.value in m.tree
       case Turn(x) => Answered(cfg, ledger, m, x)
  }

  function Moved(cfg: Config, k: PublicKey, m: Member, move: LocalMove): Member {
    match move
    case Read => m.(read := m.read + 1)
    case Adopt => m.(adopted := m.adopted + 1)
    case AddBlock(block) => m.(tree := m.tree + {block})
    case Turn(x) => m.(proposer := Proposer.React(cfg.Of(k), m.proposer, x))
  }

  ghost predicate Next(cfg: Config, s: System, s': System, move: Move) {
    match move
    case Deliver(more) =>
      && (forall i :: 0 <= i < |more| ==> Genuine(s.members, more[i]))
      && s' == s.(ledger := s.ledger + more)
    case Local(k, local) =>
      && k in s.members
      && CanMove(cfg, s.ledger, s.members[k], local)
      && s' == s.(members := s.members[k := Moved(cfg, k, s.members[k], local)])
  }

  ghost predicate Init(cfg: Config, s: System) {
    && s.ledger == []
    && Sound(cfg, s.members.Keys)
    && forall k :: k in s.members ==> Booted(cfg, k, s.members[k])
  }

  ghost predicate Booted(cfg: Config, k: PublicKey, m: Member) {
    exists proposal :: m == Member(0, 0, {GENESIS_LC}, Proposer.Initial(cfg.Of(k), proposal))
  }

  ghost predicate Step(cfg: Config, s: System, s': System) {
    exists move :: Next(cfg, s, s', move)
  }

  ghost predicate Run(cfg: Config, run: seq<System>) {
    && run != []
    && Init(cfg, run[0])
    && forall i :: 0 <= i < |run| - 1 ==> Step(cfg, run[i], run[i + 1])
  }

  lemma DeliveryIsStep(cfg: Config, s: System, s': System)
    requires s'.members == s.members && s.ledger <= s'.ledger
    requires forall i :: |s.ledger| <= i < |s'.ledger| ==> Genuine(s.members, s'.ledger[i])
    ensures Step(cfg, s, s')
  {
    var more := s'.ledger[|s.ledger|..];
    assert s' == s.(ledger := s.ledger + more);
    assert Next(cfg, s, s', Deliver(more));
  }

  // The invariant

  ghost predicate Extends(events: seq<CheckpointEvent>, i: nat, b: LcDigest) {
    i <= |events| && Prefix(Latest(events, i), b)
  }

  /** Whatever a member accepted extends the last checkpoint decided before that iteration. */
  ghost predicate AcceptsExtend(events: seq<CheckpointEvent>, signed: seq<CheckpointAction>) {
    forall a :: a in signed && a.Accept? ==> Extends(events, a.iteration, a.block)
  }

  ghost predicate MemberOk(cfg: Config, ledger: seq<LedgerEntry>, m: Member) {
    && m.read <= |ledger|
    && m.proposer.iteration <= |Extract(cfg.committee, ledger[..m.read]).1|
    && m.adopted <= |Extract(cfg.committee, ledger[..m.read]).1|
    && Proposer.ProposerOk(m.proposer)
    && Rooted(m.tree)
    && AcceptsExtend(Extract(cfg.committee, ledger).1, m.proposer.signed)
  }

  ghost predicate MembersOk(cfg: Config, ledger: seq<LedgerEntry>, members: map<PublicKey, Member>) {
    forall k :: k in members ==> MemberOk(cfg, ledger, members[k])
  }

  predicate LedgerGenuine(ledger: seq<LedgerEntry>, members: map<PublicKey, Member>) {
    forall entry :: entry in ledger ==> Genuine(members, entry)
  }

  ghost predicate Inv(cfg: Config, s: System) {
    && Sound(cfg, s.members.Keys)
    && MembersOk(cfg, s.ledger, s.members)
    && LedgerGenuine(s.ledger, s.members)
    && Chained(Extract(cfg.committee, s.ledger).1)
  }

  lemma BootedIsOk(cfg: Config, k: PublicKey, m: Member)
    requires Booted(cfg, k, m)
    ensures MemberOk(cfg, [], m)
  {
    var proposal :| m == Member(0, 0, {GENESIS_LC}, Proposer.Initial(cfg.Of(k), proposal));
    var start := Proposer.ProposerState(0, Proposer.Waiting, Proposer.Running, None, map[], None, []);
    Proposer.BeginIterationKeepsOk(cfg.Of(k), start, proposal);
  }

  lemma InitMakesInv(cfg: Config, s: System)
    requires Init(cfg, s)
    ensures Inv(cfg, s)
  {
    forall k | k in s.members ensures MemberOk(cfg, s.ledger, s.members[k]) {
      BootedIsOk(cfg, k, s.members[k]);
    }
  }

  /** A decided block has an honest accepter. */
  lemma HonestAccepter(cfg: Config, members: map<PublicKey, Member>, ledger: seq<LedgerEntry>, i: nat)
    returns (k: PublicKey)
    requires Sound(cfg, members.Keys) && LedgerGenuine(ledger, members)
    requires i < |Extract(cfg.committee, ledger).1| && Extract(cfg.committee, ledger).1[i].NewCheckpoint?
    requires Extract(cfg.committee, ledger).1[i].decision.Some?
    ensures k in members && Accept(i, Extract(cfg.committee, ledger).1[i].decision.value) in members[k].proposer.signed
  {
    var c := cfg.committee;
    var b := Extract(c, ledger).1[i].decision.value;
    DecisionHasVotes(c, ledger, i);
    var accepters := Accepters(c, ledger, i, b);
    if accepters <= c.authorities.Keys - members.Keys {
      SubsetSize(accepters, c.authorities.Keys - members.Keys);
    }
    k :| k in accepters && k in members;
    var tx :| Entry(tx) in ledger && WellSigned(c, tx) && tx.author == k && tx.action == Accept(i, b);
    assert Genuine(members, Entry(tx));
  }

  /** One more entry in the ledger adds at most one event, with the next number. */
  lemma OneMoreEntry(c: Committee, ledger: seq<LedgerEntry>, entry: LedgerEntry)
    ensures var events, more := Extract(c, ledger).1, Extract(c, ledger + [entry]).1;
      more == events || (|more| == |events| + 1 && more[|events|].NewCheckpoint? && more == events + [more[|events|]])
  {
    var longer := ledger + [entry];
    assert longer[..|longer| - 1] == ledger;
  }

  /** The new event's block extends the last checkpoint, since an honest member accepted it. */
  lemma NewDecisionExtends(cfg: Config, s: System, entry: LedgerEntry)
    requires Inv(cfg, s) && Genuine(s.members, entry)
    ensures var events, more := Extract(cfg.committee, s.ledger).1, Extract(cfg.committee, s.ledger + [entry]).1;
      |more| > |events| && more[|events|].NewCheckpoint? && more[|events|].decision.Some? ==>
      Prefix(Latest(events, |events|), more[|events|].decision.value)
  {
    var events, more := Extract(cfg.committee, s.ledger).1, Extract(cfg.committee, s.ledger + [entry]).1;
    if |more| > |events| && more[|events|].NewCheckpoint? && more[|events|].decision.Some? {
      var k := HonestAccepter(cfg, s.members, s.ledger + [entry], |events|);
      AcceptedExtends(cfg, s, k, |events|, more[|events|].decision.value);
    }
  }

  lemma AppendKeepsChain(cfg: Config, s: System, entry: LedgerEntry)
    requires Inv(cfg, s) && Genuine(s.members, entry)
    ensures Chained(Extract(cfg.committee, s.ledger + [entry]).1)
  {
    var events, more := Extract(cfg.committee, s.ledger).1, Extract(cfg.committee, s.ledger + [entry]).1;
    OneMoreEntry(cfg.committee, s.ledger, entry);
    NewDecisionExtends(cfg, s, entry);
    if more != events {
      ChainGrows(events, more[|events|]);
    }
  }

  lemma AcceptedExtends(cfg: Config, s: System, k: PublicKey, i: nat, b: LcDigest)
    requires Inv(cfg, s) && k in s.members && Accept(i, b) in s.members[k].proposer.signed
    ensures Extends(Extract(cfg.committee, s.ledger).1, i, b)
  {
    assert MemberOk(cfg, s.ledger, s.members[k]);
  }

  lemma MemberOkStays(cfg: Config, ledger: seq<LedgerEntry>, longer: seq<LedgerEntry>, m: Member)
    requires MemberOk(cfg, ledger, m) && ledger <= longer
    ensures MemberOk(cfg, longer, m)
  {
    assert longer[..m.read] == ledger[..m.read];
    LongerLedgerAppends(cfg.committee, ledger, longer);
    var events, more := Extract(cfg.committee, ledger).1, Extract(cfg.committee, longer).1;
    forall a | a in m.proposer.signed && a.Accept? ensures Extends(more, a.iteration, a.block) {
      assert Extends(events, a.iteration, a.block);
      LatestOfLonger(events, more, a.iteration);
    }
  }

  lemma ValidatedExtends(cfg: Config, ledger: seq<LedgerEntry>, m: Member, i: nat, b: LcDigest)
    requires Chained(Extract(cfg.committee, ledger).1) && m.read <= |ledger| && TotalOrder(cfg.less)
    requires i <= m.adopted <= |Events(cfg.committee, ledger, m)|
    requires Latest(Events(cfg.committee, ledger, m), m.adopted) in m.tree
    requires Validates(cfg.less, m.tree, Latest(Events(cfg.committee, ledger, m), m.adopted), b)
    ensures Extends(Extract(cfg.committee, ledger).1, i, b)
  {
    var events := Extract(cfg.committee, ledger).1;
    LongerLedgerAppends(cfg.committee, ledger[..m.read], ledger);
    LatestOfLonger(Events(cfg.committee, ledger, m), events, m.adopted);
    PrefixTransitive(Latest(events, i), Latest(events, m.adopted), b);
  }

  /** A new Accept is on a proposal that the tree manager has validated. */
  lemma NewAcceptExtends(cfg: Config, ledger: seq<LedgerEntry>, k: PublicKey, m: Member,
                         x: Proposer.Stimulus, a: CheckpointAction)
    requires Chained(Extract(cfg.committee, ledger).1) && m.read <= |ledger| && Answered(cfg, ledger, m, x)
    requires a.Accept? && a !in m.proposer.signed && a in Proposer.React(cfg.Of(k), m.proposer, x).signed
    ensures Extends(Extract(cfg.committee, ledger).1, a.iteration, a.block)
  {
    Proposer.NewAccept(cfg.Of(k), m.proposer, x, a);
    ValidatedExtends(cfg, ledger, m, a.iteration, a.block);
  }

  lemma TurnKeepsMember(cfg: Config, ledger: seq<LedgerEntry>, k: PublicKey, m: Member, x: Proposer.Stimulus)
    requires Chained(Extract(cfg.committee, ledger).1) && MemberOk(cfg, ledger, m) && Answered(cfg, ledger, m, x)
    ensures MemberOk(cfg, ledger, m.(proposer := Proposer.React(cfg.Of(k), m.proposer, x)))
  {
    EventsAreNumbered(cfg.committee, ledger[..m.read]);
    Proposer.TurnKeepsOk(cfg.Of(k), m.proposer, x);
    var events, t := Extract(cfg.committee, ledger).1, Proposer.React(cfg.Of(k), m.proposer, x);
    forall a | a in t.signed && a.Accept? ensures Extends(events, a.iteration, a.block) {
      if a !in m.proposer.signed {
        NewAcceptExtends(cfg, ledger, k, m, x, a);
      }
    }
  }

  lemma ReadKeepsMember(cfg: Config, ledger: seq<LedgerEntry>, m: Member)
    requires MemberOk(cfg, ledger, m) && m.read < |ledger|
    ensures MemberOk(cfg, ledger, m.(read := m.read + 1))
  {
    LongerLedgerAppends(cfg.committee, ledger[..m.read], ledger[..m.read + 1]);
  }

  lemma AdoptKeepsMember(cfg: Config, ledger: seq<LedgerEntry>, m: Member)
    requires MemberOk(cfg, ledger, m) && m.adopted < |Events(cfg.committee, ledger, m)|
    ensures MemberOk(cfg, ledger, m.(adopted := m.adopted + 1))
  {
  }

  lemma AddBlockKeepsMember(cfg: Config, ledger: seq<LedgerEntry>, m: Member, block: LcDigest)
    requires MemberOk(cfg, ledger, m) && block.parent.Some? && block.parent.value in m.tree
    ensures MemberOk(cfg, ledger, m.(tree := m.tree + {block}))
  {
    RootedGrows(m.tree, block);
  }

  lemma MoveKeepsMember(cfg: Config, ledger: seq<LedgerEntry>, k: PublicKey, m: Member, move: LocalMove)
    requires Chained(Extract(cfg.committee, ledger).1) && MemberOk(cfg, ledger, m) && CanMove(cfg, ledger, m, move)
    ensures MemberOk(cfg, ledger, Moved(cfg, k, m, move))
  {
    match move
    case Read => ReadKeepsMember(cfg, ledger, m);
    case Adopt => AdoptKeepsMember(cfg, ledger, m);
    case AddBlock(block) => AddBlockKeepsMember(cfg, ledger, m, block);
    case Turn(x) => TurnKeepsMember(cfg, ledger, k, m, x);
  }

  lemma GenuineStays(ledger: seq<LedgerEntry>, members: map<PublicKey, Member>, k: PublicKey, m: Member)
    requires k in members && members[k].proposer.signed <= m.proposer.signed
    requires LedgerGenuine(ledger, members)
    ensures LedgerGenuine(ledger, members[k := m])
  {
  }

  lemma MoveOnlySigns(cfg: Config, k: PublicKey, m: Member, move: LocalMove)
    ensures m.proposer.signed <= Moved(cfg, k, m, move).proposer.signed
  {
  }

  lemma AppendKeepsInv(cfg: Config, s: System, entry: LedgerEntry)
    requires Inv(cfg, s) && Genuine(s.members, entry)
    ensures Inv(cfg, s.(ledger := s.ledger + [entry]))
  {
    AppendKeepsChain(cfg, s, entry);
    forall k | k in s.members ensures MemberOk(cfg, s.ledger + [entry], s.members[k]) {
      MemberOkStays(cfg, s.ledger, s.ledger + [entry], s.members[k]);
    }
  }

  ghost predicate KeptByAppending(inv: System -> bool) {
    forall s, entry :: inv(s) && Genuine(s.members, entry) ==> inv(s.(ledger := s.ledger + [entry]))
  }

  lemma {:induction false} AppendMany(inv: System -> bool, s: System, more: seq<LedgerEntry>)
    requires KeptByAppending(inv) && inv(s)
    requires forall i :: 0 <= i < |more| ==> Genuine(s.members, more[i])
    ensures inv(s.(ledger := s.ledger + more))
  {
    if more == [] {
      assert s.(ledger := s.ledger + more) == s;
    } else {
      var init, last := more[..|more| - 1], more[|more| - 1];
      AppendMany(inv, s, init);
      var mid := s.(ledger := s.ledger + init);
      assert inv(mid) && Genuine(mid.members, last);
      assert mid.ledger + [last] == s.ledger + more;
      assert s.(ledger := s.ledger + more) == mid.(ledger := mid.ledger + [last]);
    }
  }

  lemma DeliveryKeepsInv(cfg: Config, s: System, more: seq<LedgerEntry>)
    requires Inv(cfg, s) && forall i :: 0 <= i < |more| ==> Genuine(s.members, more[i])
    ensures Inv(cfg, s.(ledger := s.ledger + more))
  {
    var inv: System -> bool := t => Inv(cfg, t);
    forall t, entry | inv(t) && Genuine(t.members, entry) ensures inv(t.(ledger := t.ledger + [entry])) {
      AppendKeepsInv(cfg, t, entry);
    }
    AppendMany(inv, s, more);
  }

  lemma SoundStays(cfg: Config, members: map<PublicKey, Member>, k: PublicKey, m: Member)
    requires Sound(cfg, members.Keys) && k in members
    ensures Sound(cfg, members[k := m].Keys)
  {
    assert members[k := m].Keys == members.Keys;
  }

  lemma MemberKeepsInv(cfg: Config, s: System, k: PublicKey, m: Member)
    requires Inv(cfg, s) && k in s.members && MemberOk(cfg, s.ledger, m)
    requires s.members[k].proposer.signed <= m.proposer.signed
    ensures Inv(cfg, s.(members := s.members[k := m]))
  {
    SoundStays(cfg, s.members, k, m);
    GenuineStays(s.ledger, s.members, k, m);
  }

  lemma LocalKeepsInv(cfg: Config, s: System, k: PublicKey, move: LocalMove)
    requires Inv(cfg, s) && k in s.members && CanMove(cfg, s.ledger, s.members[k], move)
    ensures Inv(cfg, s.(members := s.members[k := Moved(cfg, k, s.members[k], move)]))
  {
    MoveKeepsMember(cfg, s.ledger, k, s.members[k], move);
    MoveOnlySigns(cfg, k, s.members[k], move);
    MemberKeepsInv(cfg, s, k, Moved(cfg, k, s.members[k], move));
  }

  lemma NextKeepsInv(cfg: Config, s: System, s': System, move: Move)
    requires Inv(cfg, s) && Next(cfg, s, s', move)
    ensures Inv(cfg, s')
  {
    match move
    case Deliver(more) => DeliveryKeepsInv(cfg, s, more);
    case Local(k, local) => LocalKeepsInv(cfg, s, k, local);
  }

  lemma StepKeepsInv(cfg: Config, s: System, s': System)
    requires Inv(cfg, s) && Step(cfg, s, s')
    ensures Inv(cfg, s')
  {
    var move :| Next(cfg, s, s', move);
    NextKeepsInv(cfg, s, s', move);
  }

  lemma {:induction false} RunKeepsInv(cfg: Config, run: seq<System>, i: nat)
    requires Run(cfg, run) && i < |run|
    ensures Inv(cfg, run[i])
  {
    if i == 0 {
      InitMakesInv(cfg, run[0]);
    } else {
      RunKeepsInv(cfg, run, i - 1);
      assert Step(cfg, run[i - 1], run[i - 1 + 1]);
      StepKeepsInv(cfg, run[i - 1], run[i]);
    }
  }

  // Main results

  /** In every reachable state each decided checkpoint descends from every earlier one. */
  lemma CheckpointsFormChain(cfg: Config, run: seq<System>, i: nat, p: nat, q: nat)
    requires Run(cfg, run) && i < |run|
    requires var events := Extract(cfg.committee, run[i].ledger).1;
      p <= q < |events| && events[p].NewCheckpoint? && events[p].decision.Some?
      && events[q].NewCheckpoint? && events[q].decision.Some?
    ensures var events := Extract(cfg.committee, run[i].ledger).1;
      Prefix(events[p].decision.value, events[q].decision.value)
  {
    RunKeepsInv(cfg, run, i);
    DecisionsOfChain(Extract(cfg.committee, run[i].ledger).1, p, q);
  }

  lemma DecisionsOfChain(events: seq<CheckpointEvent>, p: nat, q: nat)
    requires Chained(events) && p <= q < |events|
    requires events[p].NewCheckpoint? && events[p].decision.Some?
    requires events[q].NewCheckpoint? && events[q].decision.Some?
    ensures Prefix(events[p].decision.value, events[q].decision.value)
  {
    assert Prefix(Latest(events, p + 1), Latest(events, q + 1));
  }

  /** A decided block was signed by an honest member, which had validated it. */
  lemma DecisionWasValidated(cfg: Config, run: seq<System>, i: nat, p: nat) returns (k: PublicKey)
    requires Run(cfg, run) && i < |run|
    requires var events := Extract(cfg.committee, run[i].ledger).1;
      p < |events| && events[p].NewCheckpoint? && events[p].decision.Some?
    ensures var events := Extract(cfg.committee, run[i].ledger).1;
      k in run[i].members && Accept(p, events[p].decision.value) in run[i].members[k].proposer.signed
      && Prefix(Latest(events, p), events[p].decision.value)
  {
    RunKeepsInv(cfg, run, i);
    k := HonestAccepter(cfg, run[i].members, run[i].ledger, p);
    assert MemberOk(cfg, run[i].ledger, run[i].members[k]);
  }

  /** LOGacc of a member: the last checkpoint that has reached its tree manager. */
  ghost function LogAcc(c: Committee, ledger: seq<LedgerEntry>, m: Member): LcDigest
    requires m.read <= |ledger| && m.adopted <= |Events(c, ledger, m)|
  {
    Latest(Events(c, ledger, m), m.adopted)
  }

  /** At any two times of a run, LOGacc of one honest member is a prefix of LOGacc of the other, or the reverse. */
  lemma LogAccsAgree(cfg: Config, run: seq<System>, i: nat, j: nat, h: PublicKey, k: PublicKey)
    requires Run(cfg, run) && i < |run| && j < |run| && h in run[i].members && k in run[j].members
    ensures MemberOk(cfg, run[i].ledger, run[i].members[h]) && MemberOk(cfg, run[j].ledger, run[j].members[k])
    ensures var a, b := LogAcc(cfg.committee, run[i].ledger, run[i].members[h]),
                        LogAcc(cfg.committee, run[j].ledger, run[j].members[k]);
      Prefix(a, b) || Prefix(b, a)
  {
    var last := |run| - 1;
    RunKeepsInv(cfg, run, i);
    RunKeepsInv(cfg, run, j);
    RunKeepsInv(cfg, run, last);
    LedgerOnlyGrows(cfg, run, i, last);
    LedgerOnlyGrows(cfg, run, j, last);
    LogAccIsCommon(cfg, run[i].ledger, run[last].ledger, run[i].members[h]);
    LogAccIsCommon(cfg, run[j].ledger, run[last].ledger, run[j].members[k]);
    OrderedByNumber(Extract(cfg.committee, run[last].ledger).1, run[i].members[h].adopted, run[j].members[k].adopted);
  }

  lemma LogAccIsCommon(cfg: Config, ledger: seq<LedgerEntry>, longer: seq<LedgerEntry>, m: Member)
    requires MemberOk(cfg, ledger, m) && ledger <= longer
    ensures m.adopted <= |Extract(cfg.committee, longer).1|
    ensures LogAcc(cfg.committee, ledger, m) == Latest(Extract(cfg.committee, longer).1, m.adopted)
  {
    LongerLedgerAppends(cfg.committee, ledger[..m.read], longer);
    LatestOfLonger(Events(cfg.committee, ledger, m), Extract(cfg.committee, longer).1, m.adopted);
  }

  lemma OrderedByNumber(events: seq<CheckpointEvent>, m: nat, n: nat)
    requires Chained(events) && m <= |events| && n <= |events|
    ensures Prefix(Latest(events, m), Latest(events, n)) || Prefix(Latest(events, n), Latest(events, m))
  {
    assert m <= n || n <= m;
  }

  lemma {:induction false} LedgerOnlyGrows(cfg: Config, run: seq<System>, i: nat, j: nat)
    requires Run(cfg, run) && i <= j < |run|
    ensures run[i].ledger <= run[j].ledger
    decreases j
  {
    if i < j {
      LedgerOnlyGrows(cfg, run, i, j - 1);
      assert Step(cfg, run[j - 1], run[j - 1 + 1]);
      StepGrowsLedger(cfg, run[j - 1], run[j]);
    }
  }

  lemma StepGrowsLedger(cfg: Config, s: System, s': System)
    requires Step(cfg, s, s')
    ensures s.ledger <= s'.ledger
  {
    var move :| Next(cfg, s, s', move);
  }
}
