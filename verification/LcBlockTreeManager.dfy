/**
 The block tree manager: it follows the decided checkpoints and derives from the tree the proposals
 and the two ledgers, LOGacc (the last checkpoint) and LOGava.
 */
module LcBlockTreeManagers {
  import opened Wrappers
  import opened LcBlocks
  import opened CheckpointExtractor

  // What is derived from a tree and its last checkpoint

  /** The higher of the checkpoint and the block `k` deep below the leading tip. */
  ghost function KDeepOrCheckpoint(less: Order, blocks: set<LcDigest>, checkpoint: LcDigest, k: nat): LcDigest
    requires TotalOrder(less) && checkpoint in blocks
  {
    Higher(checkpoint, Ancestor(k, LeadingTip(less, blocks, checkpoint)))
  }

  /** The proposal lies between the checkpoint and the leading tip. */
  ghost predicate Validates(less: Order, blocks: set<LcDigest>, checkpoint: LcDigest, d: LcDigest)
    requires TotalOrder(less) && checkpoint in blocks
  {
    d in blocks && Prefix(checkpoint, d) && Prefix(d, LeadingTip(less, blocks, checkpoint))
  }

  class LcBlockTreeManager {
    const lcblocktree: LcBlockTree
    const proposeKDeep: nat
    const logAvaKDeep: nat
    var checkpoints: seq<LcDigest>
    var checkpointsIterations: seq<nat>
    ghost var followed: seq<CheckpointEvent>

    /** The latest checkpoint is the last one among the events that were followed. */
    ghost predicate Valid()
      reads this, lcblocktree
    {
      && lcblocktree.Valid()
      && |checkpoints| == |checkpointsIterations|
      && Latest(followed, |followed|) == (if checkpoints == [] then GENESIS_LC else checkpoints[|checkpoints| - 1])
      && forall cp :: cp in checkpoints ==> cp in lcblocktree.lcblocks
    }

    constructor (lcblocktree: LcBlockTree, proposeKDeep: nat, logAvaKDeep: nat)
      requires lcblocktree.Valid()
      ensures Valid() && this.lcblocktree == lcblocktree && checkpoints == [] && followed == []
      ensures this.proposeKDeep == proposeKDeep && this.logAvaKDeep == logAvaKDeep
    {
      this.lcblocktree := lcblocktree;
      this.proposeKDeep, this.logAvaKDeep := proposeKDeep, logAvaKDeep;
      checkpoints, checkpointsIterations, followed := [], [], [];
    }

    function LatestCheckpoint(): (cp: LcDigest)
      requires Valid()
      reads this, lcblocktree
      ensures cp in lcblocktree.lcblocks && cp == Latest(followed, |followed|)
    {
      if checkpoints == [] then GENESIS_LC else checkpoints[|checkpoints| - 1]
    }

    /** The program stops when the block cannot be added. */
    method AddBlock(blk: LcBlock) returns (r: Result<(), string>)
      requires Valid()
      modifies lcblocktree
      ensures Valid()
      ensures r.Success? <==> blk.parent.Some? && blk.parent.value in old(lcblocktree.lcblocks)
      ensures lcblocktree.lcblocks.Keys == old(lcblocktree.lcblocks.Keys) + if r.Success? then {blk.Digest()} else {}
    {
      r := lcblocktree.Add(blk);
    }

    method NewCheckpoint(iteration: nat, decision: Option<LcDigest>)
      requires Valid() && (decision.Some? ==> decision.value in lcblocktree.lcblocks)
      modifies this
      ensures Valid() && followed == old(followed) + [CheckpointEvent.NewCheckpoint(iteration, decision)]
      ensures checkpoints == old(checkpoints) + if decision.Some? then [decision.value] else []
      ensures LatestCheckpoint() == if decision.Some? then decision.value else old(LatestCheckpoint())
    {
      LatestOfOneMore(followed, CheckpointEvent.NewCheckpoint(iteration, decision));
      followed := followed + [CheckpointEvent.NewCheckpoint(iteration, decision)];
      if decision.Some? {
        checkpoints := checkpoints + [decision.value];
        checkpointsIterations := checkpointsIterations + [iteration];
      }
    }

    /** After all the events, the latest checkpoint is the last one that they decide; proposals are ignored. */
    method Follow(events: seq<CheckpointEvent>)
      requires Valid()
      requires forall e :: e in events && e.NewCheckpoint? && e.decision.Some? ==>
        e.decision.value in lcblocktree.lcblocks
      modifies this
      ensures Valid() && followed == old(followed) + events
      ensures LatestCheckpoint() == Latest(old(followed) + events, |old(followed) + events|)
    {
      for i := 0 to |events|
        invariant Valid() && followed == old(followed) + events[..i]
      {
        assert events[i] in events;
        assert old(followed) + events[..i + 1] == old(followed) + events[..i] + [events[i]];
        match events[i]
        case NewCheckpoint(iteration, decision) => NewCheckpoint(iteration, decision);
        case NewProposal(_, _) =>
          LatestOfOneMore(followed, events[i]);
          followed := followed + [events[i]];
      }
      assert events[..|events|] == events;
    }

    method GetCurrentTip() returns (tip: LcDigest)
      requires Valid()
      ensures tip == LeadingTip(lcblocktree.less, lcblocktree.lcblocks.Keys, LatestCheckpoint())
    {
      tip := lcblocktree.LeadingTipExtending(LatestCheckpoint());
      var blocks := lcblocktree.lcblocks.Keys;
      var best := LeadingTip(lcblocktree.less, blocks, LatestCheckpoint());
      BestIsUnique(lcblocktree.less, blocks, LatestCheckpoint(), tip, best);
    }

    method HigherOfLatestAndKDeep(k: nat) returns (d: LcDigest)
      requires Valid()
      ensures d == KDeepOrCheckpoint(lcblocktree.less, lcblocktree.lcblocks.Keys, LatestCheckpoint(), k)
    {
      var latest := LatestCheckpoint();
      var tip := GetCurrentTip();
      d := lcblocktree.HigherOf(latest, lcblocktree.KDeep(k, tip)).value;
    }

    /** A node's own proposal passes its own validation. */
    method GetCurrentProposal() returns (d: LcDigest)
      requires Valid()
      ensures d == KDeepOrCheckpoint(lcblocktree.less, lcblocktree.lcblocks.Keys, LatestCheckpoint(), proposeKDeep)
      ensures Validates(lcblocktree.less, lcblocktree.lcblocks.Keys, LatestCheckpoint(), d)
    {
      d := HigherOfLatestAndKDeep(proposeKDeep);
      KDeepOrCheckpointValidates(lcblocktree.less, lcblocktree.lcblocks.Keys, LatestCheckpoint(), proposeKDeep);
    }

    method ValidateProposal(digest: LcDigest) returns (valid: bool)
      requires Valid()
      ensures valid <==> Validates(lcblocktree.less, lcblocktree.lcblocks.Keys, LatestCheckpoint(), digest)
    {
      var latest := LatestCheckpoint();
      var condition1 := lcblocktree.IsPrefixOf(latest, digest);
      var tip := GetCurrentTip();
      var condition2 := lcblocktree.IsPrefixOf(digest, tip);
      if condition1.Failure? || condition2.Failure? {
        return false;
      }
      return condition1.value && condition2.value;
    }

    /** LOGacc is a prefix of LOGava. */
    method CurrentLogs() returns (logAcc: LcDigest, logAva: LcDigest)
      requires Valid()
      ensures logAcc == LatestCheckpoint() && Prefix(logAcc, logAva)
      ensures logAva == KDeepOrCheckpoint(lcblocktree.less, lcblocktree.lcblocks.Keys, logAcc, logAvaKDeep)
    {
      logAcc := LatestCheckpoint();
      logAva := HigherOfLatestAndKDeep(logAvaKDeep);
      KDeepOrCheckpointValidates(lcblocktree.less, lcblocktree.lcblocks.Keys, logAcc, logAvaKDeep);
    }
  }

  // Nesting and stability

  lemma KDeepOrCheckpointValidates(less: Order, blocks: set<LcDigest>, checkpoint: LcDigest, k: nat)
    requires TotalOrder(less) && Rooted(blocks) && checkpoint in blocks
    ensures Validates(less, blocks, checkpoint, KDeepOrCheckpoint(less, blocks, checkpoint, k))
  {
    var tip := LeadingTip(less, blocks, checkpoint);
    var deep := Ancestor(k, tip);
    AncestorOnPath(k, tip);
    AncestorsInTree(blocks, deep, tip);
    if Height(checkpoint) < Height(deep) {
      PathIsLinear(checkpoint, deep, tip);
    }
  }

  /** The result is the one block of the leading tip's path that is `k` deep, but not below the checkpoint. */
  lemma KDeepOrCheckpointIs(less: Order, blocks: set<LcDigest>, checkpoint: LcDigest, k: nat, d: LcDigest)
    requires TotalOrder(less) && checkpoint in blocks
    ensures var tip := LeadingTip(less, blocks, checkpoint);
      d == KDeepOrCheckpoint(less, blocks, checkpoint, k) <==>
      Prefix(d, tip)
      && Height(d) == if Height(checkpoint) + k >= Height(tip) then Height(checkpoint) else Height(tip) - k
  {
    var tip := LeadingTip(less, blocks, checkpoint);
    AncestorOnPath(k, tip);
    PrefixHeight(checkpoint, tip);
    var r := KDeepOrCheckpoint(less, blocks, checkpoint, k);
    assert Prefix(r, tip);
    if Prefix(d, tip) && Height(d) == Height(r) {
      PathIsLinear(d, r, tip);
      PrefixHeight(d, r);
    }
  }

  /** A higher tip on which the old result still lies, or a later checkpoint, moves the result up the path. */
  lemma MovesUp(checkpoint: LcDigest, tip: LcDigest, checkpoint': LcDigest, tip': LcDigest, k: nat)
    requires Prefix(checkpoint, tip) && Prefix(checkpoint', tip')
    requires Height(tip) <= Height(tip') && Height(checkpoint) <= Height(checkpoint')
    ensures Prefix(Higher(checkpoint, Ancestor(k, tip)), Higher(checkpoint', Ancestor(k, tip'))) <==>
            Prefix(Higher(checkpoint, Ancestor(k, tip)), tip')
  {
    var a, a' := Higher(checkpoint, Ancestor(k, tip)), Higher(checkpoint', Ancestor(k, tip'));
    AncestorOnPath(k, tip);
    AncestorOnPath(k, tip');
    if Prefix(a, tip') {
      PathIsLinear(a, a', tip');
    }
    if Prefix(a, a') {
      PrefixTransitive(a, a', tip');
    }
  }

  /** Adopting a checkpoint that validates leaves the leading tip as it is and moves no ledger back. */
  lemma AdoptingKeepsTip(less: Order, blocks: set<LcDigest>, checkpoint: LcDigest, adopted: LcDigest, k: nat)
    requires TotalOrder(less) && Rooted(blocks) && checkpoint in blocks && Validates(less, blocks, checkpoint, adopted)
    ensures LeadingTip(less, blocks, adopted) == LeadingTip(less, blocks, checkpoint)
    ensures Prefix(KDeepOrCheckpoint(less, blocks, checkpoint, k), KDeepOrCheckpoint(less, blocks, adopted, k))
  {
    var tip := LeadingTip(less, blocks, checkpoint);
    forall d | d in blocks && Prefix(adopted, d) ensures Prefix(checkpoint, d) {
      PrefixTransitive(checkpoint, adopted, d);
    }
    BestIsUnique(less, blocks, adopted, tip, LeadingTip(less, blocks, adopted));
    KDeepOrCheckpointValidates(less, blocks, checkpoint, k);
    PrefixHeight(checkpoint, adopted);
    MovesUp(checkpoint, tip, adopted, tip, k);
  }

  /**
   Exactly when adopting a block of the tree does not roll LOGava back, also if the block does not
   validate: LOGava is on the path to the block, or deep enough on the path to the new leading tip.
   */
  lemma AdoptingRollsBackIff(less: Order, blocks: set<LcDigest>,
                             checkpoint: LcDigest, adopted: LcDigest, k: nat)
    requires TotalOrder(less) && Rooted(blocks) && checkpoint in blocks && adopted in blocks
    ensures var logAva, tip := KDeepOrCheckpoint(less, blocks, checkpoint, k), LeadingTip(less, blocks, adopted);
      Prefix(logAva, KDeepOrCheckpoint(less, blocks, adopted, k)) <==>
      Prefix(logAva, adopted) || (Prefix(logAva, tip) && Height(logAva) + k <= Height(tip))
  {
    OnHigherIff(KDeepOrCheckpoint(less, blocks, checkpoint, k), adopted, LeadingTip(less, blocks, adopted), k);
  }

  lemma OnHigherIff(a: LcDigest, checkpoint: LcDigest, tip: LcDigest, k: nat)
    requires Prefix(checkpoint, tip)
    ensures Prefix(a, Higher(checkpoint, Ancestor(k, tip))) <==>
            Prefix(a, checkpoint) || (Prefix(a, tip) && Height(a) + k <= Height(tip))
  {
    var deep := Ancestor(k, tip);
    AncestorOnPath(k, tip);
    if Height(checkpoint) >= Height(deep) {
      PathIsLinear(deep, checkpoint, tip);
      if Prefix(a, tip) && Height(a) + k <= Height(tip) {
        PathIsLinear(a, deep, tip);
        PrefixTransitive(a, deep, checkpoint);
      }
    } else {
      PathIsLinear(checkpoint, deep, tip);
      if Prefix(a, checkpoint) {
        PrefixTransitive(a, checkpoint, deep);
      }
      if Prefix(a, deep) {
        PrefixHeight(a, deep);
        PrefixTransitive(a, deep, tip);
      }
      if Prefix(a, tip) && Height(a) + k <= Height(tip) {
        PathIsLinear(a, deep, tip);
      }
    }
  }

  /** An adoption that rolls LOGava back: the block decided on is an honest sibling of the leading tip. */
  lemma AdoptingCanRollBack(less: Order)
    requires TotalOrder(less)
    ensures var honest := LcDigest(Some(GENESIS_LC), LcPayload("a", []), 1);
      var sibling := LcDigest(Some(GENESIS_LC), LcPayload("b[adv]", []), 1);
      var blocks := {GENESIS_LC, honest, sibling};
      !Prefix(KDeepOrCheckpoint(less, blocks, GENESIS_LC, 0), KDeepOrCheckpoint(less, blocks, honest, 0))
  {
    var honest := LcDigest(Some(GENESIS_LC), LcPayload("a", []), 1);
    var sibling := LcDigest(Some(GENESIS_LC), LcPayload("b[adv]", []), 1);
    var blocks := {GENESIS_LC, honest, sibling};
    var text := sibling.payload.text;
    assert text[|text| - |ADVERSARIAL_MARK|..] == ADVERSARIAL_MARK;
    assert IsBest(less, blocks, GENESIS_LC, sibling) && IsBest(less, blocks, honest, honest);
    BestIsUnique(less, blocks, GENESIS_LC, sibling, LeadingTip(less, blocks, GENESIS_LC));
    BestIsUnique(less, blocks, honest, honest, LeadingTip(less, blocks, honest));
  }

  /** A new block becomes the leading tip exactly if it is a preferred descendant of the checkpoint. */
  lemma AddingMovesTip(less: Order, blocks: set<LcDigest>, checkpoint: LcDigest, b: LcDigest)
    requires TotalOrder(less) && checkpoint in blocks
    ensures var tip := LeadingTip(less, blocks, checkpoint);
      LeadingTip(less, blocks + {b}, checkpoint) == if Prefix(checkpoint, b) && Preferred(less, b, tip) then b else tip
  {
    var tip := LeadingTip(less, blocks, checkpoint);
    var best := if Prefix(checkpoint, b) && Preferred(less, b, tip) then b else tip;
    forall d | d in blocks + {b} && Prefix(checkpoint, d) && d != best ensures Preferred(less, best, d) {
      if d == b {
        PreferredTotal(less, b, tip);
      } else if d != tip && best != tip {
        PreferredTransitive(less, b, tip, d);
      }
    }
    BestIsUnique(less, blocks + {b}, checkpoint, best, LeadingTip(less, blocks + {b}, checkpoint));
  }

  /** Exactly when a new block does not roll LOGava back: it does not take the lead, or extends LOGava. */
  lemma LogAvaRollsBackIff(less: Order, blocks: set<LcDigest>, checkpoint: LcDigest, b: LcDigest, k: nat)
    requires TotalOrder(less) && Rooted(blocks) && checkpoint in blocks
    ensures var logAva := KDeepOrCheckpoint(less, blocks, checkpoint, k);
      Prefix(logAva, KDeepOrCheckpoint(less, blocks + {b}, checkpoint, k)) <==>
      (Prefix(checkpoint, b) && Preferred(less, b, LeadingTip(less, blocks, checkpoint)) ==> Prefix(logAva, b))
  {
    AddingMovesTip(less, blocks, checkpoint, b);
    var tip, tip' := LeadingTip(less, blocks, checkpoint), LeadingTip(less, blocks + {b}, checkpoint);
    KDeepOrCheckpointValidates(less, blocks, checkpoint, k);
    MovesUp(checkpoint, tip, checkpoint, tip', k);
  }

  /** A run in which LOGava is rolled back: an adversarial sibling of the leading tip arrives. */
  lemma LogAvaCanRollBack(less: Order)
    requires TotalOrder(less)
    ensures var honest := LcDigest(Some(GENESIS_LC), LcPayload("a", []), 1);
      var sibling := LcDigest(Some(GENESIS_LC), LcPayload("b[adv]", []), 1);
      !Prefix(KDeepOrCheckpoint(less, {GENESIS_LC, honest}, GENESIS_LC, 0),
              KDeepOrCheckpoint(less, {GENESIS_LC, honest} + {sibling}, GENESIS_LC, 0))
  {
    var honest := LcDigest(Some(GENESIS_LC), LcPayload("a", []), 1);
    var sibling := LcDigest(Some(GENESIS_LC), LcPayload("b[adv]", []), 1);
    var text := sibling.payload.text;
    assert text[|text| - |ADVERSARIAL_MARK|..] == ADVERSARIAL_MARK;
    assert IsBest(less, {GENESIS_LC, honest}, GENESIS_LC, honest);
    BestIsUnique(less, {GENESIS_LC, honest}, GENESIS_LC, honest, LeadingTip(less, {GENESIS_LC, honest}, GENESIS_LC));
    LogAvaRollsBackIff(less, {GENESIS_LC, honest}, GENESIS_LC, sibling, 0);
  }
}
