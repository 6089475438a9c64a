/**
 Consensus, delivery, extraction and the gadget together: all honest nodes extract the same
 checkpoints, and these form a chain.
 */
module EndToEnd {
  import opened Committees
  import opened Messages
  import opened HotStuffNode
  import opened HotStuffProtocol
  import opened HotStuffSafety
  import opened LedgerDelivery
  import opened LedgerAgreement
  import opened LcBlocks
  import opened CheckpointExtractor
  import Gadget = CheckpointGadget

  type Lookup = PayloadDigest -> seq<LedgerEntry>

  /** The transactions of a ledger of payloads, whose contents the store looks up by their digests. */
  function Entries(lookup: Lookup, ledger: seq<PayloadDigest>): seq<LedgerEntry> {
    if ledger == [] then [] else Entries(lookup, ledger[..|ledger| - 1]) + lookup(ledger[|ledger| - 1])
  }

  lemma {:induction false} EntriesOfPrefix(lookup: Lookup, shorter: seq<PayloadDigest>, ledger: seq<PayloadDigest>)
    requires shorter <= ledger
    ensures Entries(lookup, shorter) <= Entries(lookup, ledger)
    decreases |ledger|
  {
    if shorter != ledger {
      EntriesOfPrefix(lookup, shorter, ledger[..|ledger| - 1]);
    }
  }

  /** The transactions that a node's extractor has received after `m` commits. */
  function Received(lookup: Lookup, s: NodeState, m: nat): seq<LedgerEntry>
    requires m <= |s.commits|
  {
    Entries(lookup, LedgerOf(s, m))
  }

  /** At any two times of a run, what two honest nodes extract are prefixes of each other. */
  lemma ExtractionsAgree(cfg: Config, run: seq<Nodes>, i: nat, j: nat, h: PublicKey, k: PublicKey, m: nat, n: nat,
                         lookup: Lookup, c: Committee)
    requires Run(cfg, run) && i < |run| && j < |run| && h in run[i] && k in run[j]
    requires m <= |run[i][h].commits| && n <= |run[j][k].commits|
    ensures var a, b := Extract(c, Received(lookup, run[i][h], m)).1, Extract(c, Received(lookup, run[j][k], n)).1;
      a <= b || b <= a
  {
    LedgersAgree(cfg, run, i, j, h, k, m, n);
    var a, b := LedgerOf(run[i][h], m), LedgerOf(run[j][k], n);
    if a <= b {
      EntriesOfPrefix(lookup, a, b);
      LongerLedgerAppends(c, Entries(lookup, a), Entries(lookup, b));
    } else {
      EntriesOfPrefix(lookup, b, a);
      LongerLedgerAppends(c, Entries(lookup, b), Entries(lookup, a));
    }
  }

  // Ledgers only grow

  lemma {:induction false} DeliveringAppends(ds: seq<Digest>, m: nat)
    requires m <= |ds|
    ensures DeliverAll(ds[..m]).0 <= DeliverAll(ds).0
  {
    if m == |ds| {
      assert ds[..m] == ds;
    } else {
      var init := ds[..|ds| - 1];
      assert init[..m] == ds[..m];
      DeliveringAppends(init, m);
    }
  }

  /** What was received stays at the front of what is received later. */
  lemma ReceivedGrows(lookup: Lookup, s: NodeState, m: nat, t: NodeState, n: nat)
    requires s.commits <= t.commits && m <= |s.commits| && m <= n <= |t.commits|
    ensures Received(lookup, s, m) <= Received(lookup, t, n)
  {
    var ds := Positions(t.commits[..n]);
    assert s.commits[..m] == t.commits[..n][..m];
    assert ds[..m] == Positions(s.commits[..m]);
    DeliveringAppends(ds, m);
    EntriesOfPrefix(lookup, LedgerOf(s, m), LedgerOf(t, n));
  }

  function ReceivedAll(lookup: Lookup, s: NodeState): seq<LedgerEntry> {
    Received(lookup, s, |s.commits|)
  }

  // The joint system

  /** The gadget's members run on top of the consensus nodes; its ledger is what consensus delivers. */
  datatype Joint = Joint(nodes: Nodes, gadget: Gadget.System)

  datatype Setting = Setting(cfg: Config, gadget: Gadget.Config, lookup: Lookup)

  /** The longest of the ledgers that honest nodes have received. */
  ghost predicate IsLongest(lookup: Lookup, g: Nodes, ledger: seq<LedgerEntry>) {
    && (forall h :: h in g ==> |ReceivedAll(lookup, g[h])| <= |ledger|)
    && (exists h :: h in g && ledger == ReceivedAll(lookup, g[h]))
  }

  /** All honest nodes have received the ledger or a part at its front. */
  ghost predicate Covers(lookup: Lookup, g: Nodes, ledger: seq<LedgerEntry>) {
    forall h :: h in g ==> ReceivedAll(lookup, g[h]) <= ledger
  }

  /** Honest members' signatures in what is newly delivered are on what they have signed. */
  predicate NewEntriesGenuine(s: Gadget.System, ledger: seq<LedgerEntry>) {
    s.ledger <= ledger ==> forall i :: |s.ledger| <= i < |ledger| ==> Gadget.Genuine(s.members, ledger[i])
  }

  /** Consensus takes a step, which may deliver more. */
  ghost predicate Delivery(cfg: Config, lookup: Lookup, a: Joint, b: Joint) {
    && HotStuffProtocol.Step(cfg, a.nodes, b.nodes)
    && b.gadget.members == a.gadget.members
    && IsLongest(lookup, b.nodes, b.gadget.ledger)
    && NewEntriesGenuine(a.gadget, b.gadget.ledger)
  }

  /** A member of the gadget moves. */
  ghost predicate MemberMoves(gadget: Gadget.Config, a: Joint, b: Joint) {
    b.nodes == a.nodes && b.gadget.ledger == a.gadget.ledger && Gadget.Step(gadget, a.gadget, b.gadget)
  }

  ghost predicate JointStep(env: Setting, a: Joint, b: Joint) {
    Delivery(env.cfg, env.lookup, a, b) || MemberMoves(env.gadget, a, b)
  }

  ghost predicate JointSteps(env: Setting, run: seq<Joint>) {
    forall i :: 0 <= i < |run| - 1 ==> JointStep(env, run[i], run[i + 1])
  }

  ghost predicate JointRun(env: Setting, run: seq<Joint>) {
    && run != []
    && Init(env.cfg, run[0].nodes) && Gadget.Init(env.gadget, run[0].gadget)
    && JointSteps(env, run)
  }

  function NodesOf(run: seq<Joint>): seq<Nodes> {
    seq(|run|, i requires 0 <= i < |run| => run[i].nodes)
  }

  lemma {:induction false} HonestNodesStay(env: Setting, run: seq<Joint>, i: nat)
    requires JointSteps(env, run) && i < |run|
    ensures run[i].nodes.Keys == run[0].nodes.Keys
  {
    if i > 0 {
      HonestNodesStay(env, run, i - 1);
      assert JointStep(env, run[i - 1], run[i - 1 + 1]);
      JointStepKeepsNodes(env, run[i - 1], run[i]);
    }
  }

  lemma JointStepKeepsNodes(env: Setting, a: Joint, b: Joint)
    requires JointStep(env, a, b)
    ensures b.nodes.Keys == a.nodes.Keys
  {
    if Delivery(env.cfg, env.lookup, a, b) {
      var h, x :| StepBy(env.cfg, a.nodes, b.nodes, h, x);
      StepGrowsWorld(env.cfg, a.nodes, b.nodes, h, x);
    }
  }

  lemma JointStepMovesNodes(env: Setting, a: Joint, b: Joint)
    requires JointStep(env, a, b) && HonestMajority(env.cfg.committee, a.nodes.Keys)
    ensures HotStuffProtocol.Step(env.cfg, a.nodes, b.nodes)
  {
    if !Delivery(env.cfg, env.lookup, a, b) {
      IdleStep(env.cfg, a.nodes);
    }
  }

  /** The consensus part of a joint run is a run of consensus. */
  lemma NodesRun(env: Setting, run: seq<Joint>)
    requires JointRun(env, run)
    ensures Run(env.cfg, NodesOf(run))
  {
    var nodes := NodesOf(run);
    forall i | 0 <= i < |nodes| - 1 ensures HotStuffProtocol.Step(env.cfg, nodes[i], nodes[i + 1]) {
      assert JointStep(env, run[i], run[i + 1]);
      HonestNodesStay(env, run, i);
      JointStepMovesNodes(env, run[i], run[i + 1]);
    }
  }

  /** By agreement, the longest ledger covers all others. */
  lemma LongestCovers(cfg: Config, lookup: Lookup, run: seq<Nodes>, i: nat, ledger: seq<LedgerEntry>)
    requires Run(cfg, run) && i < |run| && IsLongest(lookup, run[i], ledger)
    ensures Covers(lookup, run[i], ledger)
  {
    var h :| h in run[i] && ledger == ReceivedAll(lookup, run[i][h]);
    forall k | k in run[i] ensures ReceivedAll(lookup, run[i][k]) <= ledger {
      var m, n := |run[i][h].commits|, |run[i][k].commits|;
      LedgersAgree(cfg, run, i, i, h, k, m, n);
      if LedgerOf(run[i][k], n) <= LedgerOf(run[i][h], m) {
        EntriesOfPrefix(lookup, LedgerOf(run[i][k], n), LedgerOf(run[i][h], m));
      } else {
        EntriesOfPrefix(lookup, LedgerOf(run[i][h], m), LedgerOf(run[i][k], n));
      }
    }
  }

  /** The gadget's ledger is empty, or was received by some node. */
  ghost predicate IsReceived(lookup: Lookup, g: Nodes, ledger: seq<LedgerEntry>) {
    ledger == [] || exists h :: h in g && ledger == ReceivedAll(lookup, g[h])
  }

  lemma ReceivedIsCoveredLater(cfg: Config, lookup: Lookup,
                               g: Nodes, ledger: seq<LedgerEntry>, g': Nodes, ledger': seq<LedgerEntry>)
    requires HotStuffProtocol.Step(cfg, g, g') && IsReceived(lookup, g, ledger) && Covers(lookup, g', ledger')
    ensures ledger <= ledger'
  {
    if ledger != [] {
      var h :| h in g && ledger == ReceivedAll(lookup, g[h]);
      var k, x :| StepBy(cfg, g, g', k, x);
      StepGrowsWorld(cfg, g, g', k, x);
      ReceivedGrows(lookup, g[h], |g[h].commits|, g'[h], |g'[h].commits|);
    }
  }

  lemma NothingReceivedAtFirst(cfg: Config, lookup: Lookup, g: Nodes)
    requires Init(cfg, g)
    ensures Covers(lookup, g, [])
  {
    forall h | h in g ensures ReceivedAll(lookup, g[h]) == [] {
      var boycott, made :| g[h] == Boot(cfg, h, boycott, made);
    }
  }

  /** The gadget's ledger covers what all nodes have received. */
  ghost predicate JointOk(lookup: Lookup, x: Joint) {
    Covers(lookup, x.nodes, x.gadget.ledger) && IsReceived(lookup, x.nodes, x.gadget.ledger)
  }

  lemma JointStepKeepsOk(env: Setting, run: seq<Joint>, i: nat)
    requires JointRun(env, run) && 0 < i < |run| && JointOk(env.lookup, run[i - 1])
    ensures JointOk(env.lookup, run[i]) && run[i - 1].gadget.ledger <= run[i].gadget.ledger
  {
    var a, b := run[i - 1], run[i - 1 + 1];
    assert JointStep(env, a, b);
    if Delivery(env.cfg, env.lookup, a, b) {
      NodesRun(env, run);
      LongestCovers(env.cfg, env.lookup, NodesOf(run), i, b.gadget.ledger);
      ReceivedIsCoveredLater(env.cfg, env.lookup, a.nodes, a.gadget.ledger, b.nodes, b.gadget.ledger);
    }
  }

  /** In every joint run the gadget's ledger covers what all nodes have received. */
  lemma {:induction false} JointRunKeepsOk(env: Setting, run: seq<Joint>, i: nat)
    requires JointRun(env, run) && i < |run|
    ensures JointOk(env.lookup, run[i])
  {
    if i == 0 {
      NothingReceivedAtFirst(env.cfg, env.lookup, run[0].nodes);
    } else {
      JointRunKeepsOk(env, run, i - 1);
      JointStepKeepsOk(env, run, i);
    }
  }

  function GadgetsOf(run: seq<Joint>): seq<Gadget.System> {
    seq(|run|, i requires 0 <= i < |run| => run[i].gadget)
  }

  lemma JointStepMovesGadget(env: Setting, a: Joint, b: Joint)
    requires JointStep(env, a, b) && a.gadget.ledger <= b.gadget.ledger
    ensures Gadget.Step(env.gadget, a.gadget, b.gadget)
  {
    if Delivery(env.cfg, env.lookup, a, b) {
      Gadget.DeliveryIsStep(env.gadget, a.gadget, b.gadget);
    }
  }

  /** The gadget's part of a joint run is a run of the gadget. */
  lemma GadgetsRun(env: Setting, run: seq<Joint>)
    requires JointRun(env, run)
    ensures Gadget.Run(env.gadget, GadgetsOf(run))
  {
    var gadgets := GadgetsOf(run);
    forall i | 0 <= i < |gadgets| - 1 ensures Gadget.Step(env.gadget, gadgets[i], gadgets[i + 1]) {
      GadgetStepOfRun(env, run, i);
    }
  }

  lemma GadgetStepOfRun(env: Setting, run: seq<Joint>, i: nat)
    requires JointRun(env, run) && i < |run| - 1
    ensures Gadget.Step(env.gadget, run[i].gadget, run[i + 1].gadget)
  {
    JointRunKeepsOk(env, run, i);
    JointStepKeepsOk(env, run, i + 1);
    assert JointStep(env, run[i], run[i + 1]);
    JointStepMovesGadget(env, run[i], run[i + 1]);
  }

  predicate Precedes(a: Joint, b: Joint) {
    a.gadget.ledger <= b.gadget.ledger
  }

  lemma LedgerGrowsAt(env: Setting, run: seq<Joint>, t: nat)
    requires JointRun(env, run) && 0 < t < |run|
    ensures Precedes(run[t - 1], run[t])
  {
    JointRunKeepsOk(env, run, t - 1);
    JointStepKeepsOk(env, run, t);
  }

  lemma {:induction false} PrefixesCompose(run: seq<Joint>, i: nat, j: nat)
    requires i <= j < |run|
    requires forall t :: i < t <= j ==> Precedes(run[t - 1], run[t])
    ensures Precedes(run[i], run[j])
    decreases j
  {
    if i < j {
      PrefixesCompose(run, i, j - 1);
      assert Precedes(run[j - 1], run[j]);
    }
  }

  lemma LedgerOnlyGrows(env: Setting, run: seq<Joint>, i: nat, j: nat)
    requires JointRun(env, run) && i <= j < |run|
    ensures Precedes(run[i], run[j])
  {
    forall t | i < t <= j ensures Precedes(run[t - 1], run[t]) {
      LedgerGrowsAt(env, run, t);
    }
    PrefixesCompose(run, i, j);
  }

  // Main results

  /** The events that a node extracts after `m` commits. */
  ghost function Extracted(env: Setting, s: NodeState, m: nat): seq<CheckpointEvent>
    requires m <= |s.commits|
  {
    Extract(env.gadget.committee, Received(env.lookup, s, m)).1
  }

  predicate Decides(e: CheckpointEvent) {
    e.NewCheckpoint? && e.decision.Some?
  }

  predicate Numbered(events: seq<CheckpointEvent>) {
    forall p :: 0 <= p < |events| ==> events[p].NewCheckpoint? && events[p].iteration == p
  }

  /** Each checkpoint of the second sequence descends from those of the first that are not later. */
  predicate Descend(a: seq<CheckpointEvent>, b: seq<CheckpointEvent>) {
    forall p, q :: 0 <= p <= q && p < |a| && q < |b| && Decides(a[p]) && Decides(b[q]) ==>
      Prefix(a[p].decision.value, b[q].decision.value)
  }

  /** Of two sequences of events one begins with the other, and their checkpoints form a chain. */
  predicate Consistent(a: seq<CheckpointEvent>, b: seq<CheckpointEvent>) {
    (a <= b || b <= a) && Numbered(a) && Descend(a, b)
  }

  /** What any node extracts at any time is a prefix of what the common ledger says later. */
  lemma ExtractedIsCommon(env: Setting, run: seq<Joint>, i: nat, j: nat, h: PublicKey, m: nat)
    requires JointRun(env, run) && i <= j < |run|
    requires h in run[i].nodes && m <= |run[i].nodes[h].commits|
    ensures Extracted(env, run[i].nodes[h], m) <= Extract(env.gadget.committee, run[j].gadget.ledger).1
  {
    var s := run[i].nodes[h];
    ReceivedGrows(env.lookup, s, m, s, |s.commits|);
    JointRunKeepsOk(env, run, i);
    LedgerOnlyGrows(env, run, i, j);
    assert ReceivedAll(env.lookup, s) <= run[i].gadget.ledger;
    LongerLedgerAppends(env.gadget.committee, Received(env.lookup, s, m), run[j].gadget.ledger);
  }

  /**
   All honest nodes extract the same checkpoints, and these form a chain: at any two times of a joint
   run, the events of two nodes are prefixes of each other and are numbered from 0, and each
   checkpoint that one of them has extracted descends from the earlier ones of the other.
   */
  lemma CheckpointsAgreeAndFormChain(env: Setting, run: seq<Joint>, i: nat, j: nat,
                                     h: PublicKey, k: PublicKey, m: nat, n: nat)
    requires JointRun(env, run) && i < |run| && j < |run|
    requires h in run[i].nodes && m <= |run[i].nodes[h].commits|
    requires k in run[j].nodes && n <= |run[j].nodes[k].commits|
    ensures Consistent(Extracted(env, run[i].nodes[h], m), Extracted(env, run[j].nodes[k], n))
  {
    var last := |run| - 1;
    var common := Extract(env.gadget.committee, run[last].gadget.ledger).1;
    var a, b := Extracted(env, run[i].nodes[h], m), Extracted(env, run[j].nodes[k], n);
    ExtractedIsCommon(env, run, i, last, h, m);
    ExtractedIsCommon(env, run, j, last, k, n);
    EventsAreNumbered(env.gadget.committee, Received(env.lookup, run[i].nodes[h], m));
    GadgetsRun(env, run);
    forall p, q | 0 <= p <= q && p < |a| && q < |b| && Decides(a[p]) && Decides(b[q])
      ensures Prefix(a[p].decision.value, b[q].decision.value)
    {
      assert a[p] == common[p] && b[q] == common[q];
      Gadget.CheckpointsFormChain(env.gadget, GadgetsOf(run), last, p, q);
    }
  }
}
