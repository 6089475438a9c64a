/**
 Blocks of the longest chain and the tree that they form.
 */
module LcBlocks {
  import opened Wrappers

  datatype LcPayload = LcPayload(text: string, padding: seq<nat>)

  /** What the program hashes for a block, that is, all of it. */
  datatype LcDigest = LcDigest(parent: Option<LcDigest>, payload: LcPayload, slot: nat)

  datatype LcBlock = LcBlock(parent: Option<LcDigest>, payload: LcPayload, slot: nat) {
    function Digest(): LcDigest {
      LcDigest(parent, payload, slot)
    }

    predicate IsAdversarial() {
      Adversarial(Digest())
    }
  }

  const ADVERSARIAL_MARK := "[adv]"
  const GENESIS_LC_BLOCK := LcBlock(None, LcPayload("Genesis", []), 0)
  const GENESIS_LC: LcDigest := GENESIS_LC_BLOCK.Digest()

  predicate Adversarial(d: LcDigest) {
    var text := d.payload.text;
    |ADVERSARIAL_MARK| <= |text| && text[|text| - |ADVERSARIAL_MARK|..] == ADVERSARIAL_MARK
  }

  // Paths

  function Height(d: LcDigest): nat {
    if d.parent.None? then 0 else 1 + Height(d.parent.value)
  }

  /** `a` is on the path from the root to `d`. */
  predicate Prefix(a: LcDigest, d: LcDigest) {
    d == a || (d.parent.Some? && Prefix(a, d.parent.value))
  }

  function Ancestor(k: nat, d: LcDigest): LcDigest {
    if k == 0 || d.parent.None? then d else Ancestor(k - 1, d.parent.value)
  }

  function Higher(a: LcDigest, b: LcDigest): LcDigest {
    if Height(a) >= Height(b) then a else b
  }

  lemma {:induction false} PrefixHeight(a: LcDigest, d: LcDigest)
    requires Prefix(a, d)
    ensures Height(a) <= Height(d) && (Height(a) == Height(d) ==> a == d)
  {
    if a != d {
      PrefixHeight(a, d.parent.value);
    }
  }

  lemma {:induction false} PrefixTransitive(a: LcDigest, b: LcDigest, d: LcDigest)
    requires Prefix(a, b) && Prefix(b, d)
    ensures Prefix(a, d)
  {
    if b != d {
      PrefixTransitive(a, b, d.parent.value);
    }
  }

  /** Blocks on one path are ordered by their heights. */
  lemma {:induction false} PathIsLinear(a: LcDigest, b: LcDigest, d: LcDigest)
    requires Prefix(a, d) && Prefix(b, d) && Height(a) <= Height(b)
    ensures Prefix(a, b)
  {
    if b != d {
      if a == d {
        PrefixHeight(b, d.parent.value);
      } else {
        PathIsLinear(a, b, d.parent.value);
      }
    }
  }

  /** `k` blocks deep is the block of the path whose height is lower by `k`, or the root. */
  lemma {:induction false} AncestorOnPath(k: nat, d: LcDigest)
    ensures Prefix(Ancestor(k, d), d)
    ensures Height(Ancestor(k, d)) == if k <= Height(d) then Height(d) - k else 0
    ensures forall a :: Prefix(a, d) && Height(a) == Height(Ancestor(k, d)) ==> a == Ancestor(k, d)
  {
    if k > 0 && d.parent.Some? {
      AncestorOnPath(k - 1, d.parent.value);
    }
    forall a | Prefix(a, d) && Height(a) == Height(Ancestor(k, d)) ensures a == Ancestor(k, d) {
      PathIsLinear(a, Ancestor(k, d), d);
      PrefixHeight(a, Ancestor(k, d));
    }
  }

  // Fork choice

  /** How digests compare, byte by byte. */
  type Order = (LcDigest, LcDigest) -> bool

  ghost predicate TotalOrder(less: Order) {
    && (forall a, b :: less(a, b) ==> !less(b, a))
    && (forall a, b :: a != b ==> less(a, b) || less(b, a))
    && (forall a, b, c :: less(a, b) && less(b, c) ==> less(a, c))
  }

  /** Higher blocks first, then adversarial ones, then smaller digests. */
  predicate Preferred(less: Order, a: LcDigest, b: LcDigest) {
    || Height(a) > Height(b)
    || (Height(a) == Height(b) && Adversarial(a) && !Adversarial(b))
    || (Height(a) == Height(b) && Adversarial(a) == Adversarial(b) && less(a, b))
  }

  /** The blocks of a tree: one root, and every other block's parent is there. */
  predicate Rooted(blocks: set<LcDigest>) {
    && GENESIS_LC in blocks
    && forall d {:trigger ParentIn(blocks, d)} :: d in blocks ==> ParentIn(blocks, d)
  }

  predicate ParentIn(blocks: set<LcDigest>, d: LcDigest) {
    if d.parent.None? then d == GENESIS_LC else d.parent.value in blocks
  }

  predicate IsLeaf(blocks: set<LcDigest>, d: LcDigest) {
    forall e :: e in blocks ==> e.parent != Some(d)
  }

  /** All leaves are indexed; other blocks may be, too. */
  predicate IndexOk(blocks: set<LcDigest>, tips: set<LcDigest>) {
    tips <= blocks && forall d :: d in blocks && IsLeaf(blocks, d) ==> d in tips
  }

  /** The index holds the leaves and nothing else. */
  predicate IndexExact(blocks: set<LcDigest>, tips: set<LcDigest>) {
    tips <= blocks && forall d :: d in blocks ==> (IsLeaf(blocks, d) <==> d in tips)
  }

  /** `r` is preferred to all other descendants of the checkpoint. */
  predicate IsBest(less: Order, blocks: set<LcDigest>, checkpoint: LcDigest, r: LcDigest) {
    && r in blocks && Prefix(checkpoint, r)
    && forall d :: d in blocks && Prefix(checkpoint, d) && d != r ==> Preferred(less, r, d)
  }

  lemma {:induction false} AncestorsInTree(blocks: set<LcDigest>, a: LcDigest, d: LcDigest)
    requires Rooted(blocks) && d in blocks && Prefix(a, d)
    ensures a in blocks
  {
    if a != d {
      assert ParentIn(blocks, d);
      AncestorsInTree(blocks, a, d.parent.value);
    }
  }

  lemma {:induction false} RootOfAll(blocks: set<LcDigest>, d: LcDigest)
    requires Rooted(blocks) && d in blocks
    ensures Prefix(GENESIS_LC, d)
  {
    assert ParentIn(blocks, d);
    if d.parent.Some? {
      RootOfAll(blocks, d.parent.value);
    }
  }

  lemma PreferredTransitive(less: Order, a: LcDigest, b: LcDigest, c: LcDigest)
    requires TotalOrder(less) && Preferred(less, a, b) && Preferred(less, b, c)
    ensures Preferred(less, a, c) && a != c
  {
    assert less(a, b) ==> !less(b, a);
    assert less(a, b) && less(b, c) ==> less(a, c);
  }

  lemma PreferredTotal(less: Order, a: LcDigest, b: LcDigest)
    requires TotalOrder(less) && a != b
    ensures Preferred(less, a, b) <==> !Preferred(less, b, a)
  {
    assert less(a, b) || less(b, a);
    assert less(a, b) ==> !less(b, a);
  }

  lemma BestIsUnique(less: Order, blocks: set<LcDigest>, checkpoint: LcDigest, r: LcDigest, r': LcDigest)
    requires TotalOrder(less) && IsBest(less, blocks, checkpoint, r) && IsBest(less, blocks, checkpoint, r')
    ensures r == r'
  {
    if r != r' {
      PreferredTotal(less, r, r');
    }
  }

  function HigherThan(blocks: set<LcDigest>, d: LcDigest): set<LcDigest> {
    set x | x in blocks && Height(x) > Height(d)
  }

  /** Every block has a leaf above it. */
  lemma {:induction false} LeafAbove(blocks: set<LcDigest>, d: LcDigest) returns (leaf: LcDigest)
    requires d in blocks
    ensures leaf in blocks && IsLeaf(blocks, leaf) && Prefix(d, leaf)
    decreases HigherThan(blocks, d)
  {
    if IsLeaf(blocks, d) {
      leaf := d;
    } else {
      var child :| child in blocks && child.parent == Some(d);
      assert child in HigherThan(blocks, d) && child !in HigherThan(blocks, child);
      leaf := LeafAbove(blocks, child);
      PrefixTransitive(d, child, leaf);
    }
  }

  lemma {:induction false} BestExists(less: Order, blocks: set<LcDigest>, checkpoint: LcDigest)
    requires TotalOrder(less) && checkpoint in blocks
    ensures exists r :: IsBest(less, blocks, checkpoint, r)
    decreases |blocks|
  {
    if blocks == {checkpoint} {
      assert IsBest(less, blocks, checkpoint, checkpoint);
    } else {
      var x :| x in blocks && x != checkpoint;
      BestExists(less, blocks - {x}, checkpoint);
      var r :| IsBest(less, blocks - {x}, checkpoint, r);
      if Prefix(checkpoint, x) && Preferred(less, x, r) {
        forall d | d in blocks && Prefix(checkpoint, d) && d != x ensures Preferred(less, x, d) {
          if d != r {
            PreferredTransitive(less, x, r, d);
          }
        }
        assert IsBest(less, blocks, checkpoint, x);
      } else {
        PreferredTotal(less, x, r);
        assert IsBest(less, blocks, checkpoint, r);
      }
    }
  }

  ghost function LeadingTip(less: Order, blocks: set<LcDigest>, checkpoint: LcDigest): (r: LcDigest)
    requires TotalOrder(less) && checkpoint in blocks
    ensures IsBest(less, blocks, checkpoint, r)
  {
    BestExists(less, blocks, checkpoint);
    var r :| IsBest(less, blocks, checkpoint, r);
    r
  }

  /** The best of the indexed blocks is the best of all blocks. */
  lemma BestOfTipsIsBest(less: Order, blocks: set<LcDigest>, tips: set<LcDigest>, checkpoint: LcDigest, r: LcDigest)
    requires TotalOrder(less) && IndexOk(blocks, tips)
    requires r in blocks && Prefix(checkpoint, r)
    requires forall t :: t in tips && Prefix(checkpoint, t) && t != r ==> Preferred(less, r, t)
    ensures IsBest(less, blocks, checkpoint, r)
  {
    forall d | d in blocks && Prefix(checkpoint, d) && d != r ensures Preferred(less, r, d) {
      var leaf := LeafAbove(blocks, d);
      PrefixTransitive(checkpoint, d, leaf);
      PrefixHeight(d, leaf);
      if leaf != d && leaf != r {
        PreferredTransitive(less, r, leaf, d);
      }
    }
  }

  /** Blocks are stored under their digests, and cached heights are the lengths of paths. */
  ghost predicate CachesOk(lcblocks: map<LcDigest, LcBlock>, heights: map<LcDigest, nat>) {
    && (forall d :: d in lcblocks ==> lcblocks[d].Digest() == d)
    && heights.Keys == lcblocks.Keys
    && (forall d :: d in heights ==> heights[d] == Height(d))
  }

  lemma CachesGrow(lcblocks: map<LcDigest, LcBlock>, heights: map<LcDigest, nat>, blk: LcBlock)
    requires CachesOk(lcblocks, heights) && blk.parent.Some? && blk.parent.value in lcblocks
    ensures CachesOk(lcblocks[blk.Digest() := blk], heights[blk.Digest() := heights[blk.parent.value] + 1])
  {
  }

  /** Everything about the blocks and the index that an addition keeps. */
  lemma AddingKeepsTree(blocks: set<LcDigest>, tips: set<LcDigest>, d: LcDigest)
    requires Rooted(blocks) && IndexOk(blocks, tips) && d.parent.Some? && d.parent.value in blocks
    ensures Rooted(blocks + {d}) && IndexOk(blocks + {d}, tips - {d.parent.value} + {d})
    ensures IndexExact(blocks, tips) ==>
      (IndexExact(blocks + {d}, tips - {d.parent.value} + {d}) <==> IsLeaf(blocks, d))
  {
    RootedGrows(blocks, d);
    IndexGrows(blocks, tips, d);
    if IndexExact(blocks, tips) {
      IndexStaysExactIff(blocks, tips, d);
    }
  }

  class LcBlockTree {
    const less: Order
    var lcblocks: map<LcDigest, LcBlock>
    var precomputedHeight: map<LcDigest, nat>
    var idxTips: set<LcDigest>

    ghost predicate Valid()
      reads this
    {
      && TotalOrder(less)
      && Rooted(lcblocks.Keys)
      && IndexOk(lcblocks.Keys, idxTips)
      && CachesOk(lcblocks, precomputedHeight)
    }

    /** `less` is the byte order of the digests, of which only that it is a total order is used. */
    constructor (less: Order)
      requires TotalOrder(less)
      ensures Valid() && this.less == less && lcblocks.Keys == {GENESIS_LC}
      ensures IndexExact(lcblocks.Keys, idxTips)
    {
      this.less := less;
      lcblocks := map[GENESIS_LC := GENESIS_LC_BLOCK];
      precomputedHeight := map[GENESIS_LC := 0];
      idxTips := {GENESIS_LC};
    }

    method Add(blk: LcBlock) returns (r: Result<(), string>)
      requires Valid()
      modifies this
      ensures Valid()
      ensures r.Success? <==> blk.parent.Some? && blk.parent.value in old(lcblocks)
      ensures r.Failure? ==> lcblocks == old(lcblocks) && idxTips == old(idxTips)
      ensures r.Success? ==> lcblocks.Keys == old(lcblocks.Keys) + {blk.Digest()}
      ensures r.Success? ==> idxTips == old(idxTips) - {blk.parent.value} + {blk.Digest()}
      ensures r.Success? && old(IndexExact(lcblocks.Keys, idxTips)) ==>
        (IndexExact(lcblocks.Keys, idxTips) <==> IsLeaf(old(lcblocks.Keys), blk.Digest()))
    {
      if blk.parent.None? {
        return Failure("Parent is None, there can be only one genesis block!");
      }
      var parent := blk.parent.value;
      if parent !in precomputedHeight {
        return Failure("Parent is unknown!");
      }
      var digest := blk.Digest();
      CachesGrow(lcblocks, precomputedHeight, blk);
      AddingKeepsTree(lcblocks.Keys, idxTips, digest);
      idxTips := idxTips - {parent};
      idxTips := idxTips + {digest};
      lcblocks := lcblocks[digest := blk];
      precomputedHeight := precomputedHeight[digest := precomputedHeight[parent] + 1];
      assert lcblocks.Keys == old(lcblocks.Keys) + {digest};
      return Success(());
    }

    /** Stops below the height of the shorter block, and yet decides ancestry exactly. */
    function IsPrefixOf(short: LcDigest, long: LcDigest): (r: Result<bool, string>)
      requires Valid()
      reads this
      ensures r.Failure? <==> short !in lcblocks || long !in lcblocks
      ensures r.Success? ==> (r.value <==> Prefix(short, long))
      decreases long
    {
      if short !in lcblocks then Failure("Unknown block blk_short_digest!")
      else if long !in lcblocks then Failure("Unknown block blk_long_digest!")
      else if precomputedHeight[short] > precomputedHeight[long] then
        HigherIsNoPrefix(short, long);
        Success(false)
      else if long == short then Success(true)
      else
        match lcblocks[long].parent
        case None => Success(false)
        case Some(parent) =>
          assert lcblocks[long].Digest() == long && ParentIn(lcblocks.Keys, long);
          IsPrefixOf(short, parent)
    }

    function TieBreak(d1: LcDigest, d2: LcDigest): (r: LcDigest)
      requires Valid() && d1 in lcblocks && d2 in lcblocks
      reads this
      ensures r == if Preferred(less, d1, d2) then d1 else d2
      ensures Height(d1) > Height(d2) ==> r == d1
      ensures Height(d1) < Height(d2) ==> r == d2
      ensures Height(d1) == Height(d2) && Adversarial(d1) && !Adversarial(d2) ==> r == d1
      ensures Height(d1) == Height(d2) && !Adversarial(d1) && Adversarial(d2) ==> r == d2
      ensures Height(d1) == Height(d2) && Adversarial(d1) == Adversarial(d2) ==> r == if less(d1, d2) then d1 else d2
    {
      var h1, h2 := precomputedHeight[d1], precomputedHeight[d2];
      var b1, b2 := lcblocks[d1], lcblocks[d2];
      if h1 > h2 then d1
      else if h2 > h1 then d2
      else if b1.IsAdversarial() && !b2.IsAdversarial() then d1
      else if b2.IsAdversarial() && !b1.IsAdversarial() then d2
      else if less(d1, d2) then d1 else d2
    }

    /** In whatever order the index is walked, the result is the best of all descendants. */
    method LeadingTipExtending(checkpoint: LcDigest) returns (tip: LcDigest)
      requires Valid() && checkpoint in lcblocks
      ensures IsBest(less, lcblocks.Keys, checkpoint, tip)
    {
      tip := checkpoint;
      var rest := idxTips;
      while rest != {}
        invariant rest <= idxTips
        invariant tip in lcblocks && Prefix(checkpoint, tip)
        invariant forall t :: t in idxTips - rest && Prefix(checkpoint, t) && t != tip ==> Preferred(less, tip, t)
      {
        var t :| t in rest;
        rest := rest - {t};
        if TieBreak(t, tip) == t && IsPrefixOf(checkpoint, t).value {
          BetterThanAll(less, idxTips - rest - {t}, checkpoint, tip, t);
          tip := t;
        } else if t != tip {
          PreferredTotal(less, t, tip);
        }
      }
      BestOfTipsIsBest(less, lcblocks.Keys, idxTips, checkpoint, tip);
    }

    function KDeep(k: nat, b: LcDigest): (r: LcDigest)
      requires Valid() && b in lcblocks
      reads this
      ensures r in lcblocks && r == Ancestor(k, b)
      decreases k
    {
      if k == 0 then b
      else
        assert lcblocks[b].Digest() == b && ParentIn(lcblocks.Keys, b);
        match lcblocks[b].parent
        case None => b
        case Some(parent) => KDeep(k - 1, parent)
    }

    function HigherOf(b1: LcDigest, b2: LcDigest): (r: Result<LcDigest, string>)
      requires Valid()
      reads this
      ensures r.Failure? <==> b1 !in lcblocks || b2 !in lcblocks
      ensures r.Success? ==> r.value == Higher(b1, b2) && r.value == if Height(b1) >= Height(b2) then b1 else b2
    {
      if b1 !in lcblocks then Failure("Unknown block b1!")
      else if b2 !in lcblocks then Failure("Unknown block b2!")
      else if precomputedHeight[b1] >= precomputedHeight[b2] then Success(b1)
      else Success(b2)
    }

    function HeightHonest(b: LcDigest): (r: Result<nat, string>)
      requires Valid()
      reads this
      ensures r.Failure? <==> b !in lcblocks
      ensures r.Success? ==> r.value == |HonestOnPath(b)|
      decreases b
    {
      if b !in lcblocks then Failure("Unknown block!")
      else
        assert lcblocks[b].Digest() == b && ParentIn(lcblocks.Keys, b);
        match lcblocks[b].parent
        case None => Success(0)
        case Some(parent) =>
          Success(HeightHonest(parent).value + if !lcblocks[b].IsAdversarial() then 1 else 0)
    }
  }

  /** The honest blocks on the way from the root, which does not count, to `d`. */
  function HonestOnPath(d: LcDigest): seq<LcDigest> {
    if d.parent.None? then []
    else HonestOnPath(d.parent.value) + if Adversarial(d) then [] else [d]
  }

  /** These are exactly the blocks on the path that are neither the root nor adversarial, each once. */
  lemma {:induction false} HonestOnPathAre(d: LcDigest, a: LcDigest)
    ensures multiset(HonestOnPath(d))[a] == if Prefix(a, d) && a.parent.Some? && !Adversarial(a) then 1 else 0
  {
    if d.parent.Some? {
      HonestOnPathAre(d.parent.value, a);
      if Prefix(d, d.parent.value) {
        PrefixHeight(d, d.parent.value);
      }
    } else if Prefix(a, d) {
      assert a == d;
    }
  }

  lemma HigherIsNoPrefix(short: LcDigest, long: LcDigest)
    requires Height(short) > Height(long)
    ensures !Prefix(short, long)
  {
    if Prefix(short, long) {
      PrefixHeight(short, long);
    }
  }

  lemma RootedGrows(blocks: set<LcDigest>, d: LcDigest)
    requires Rooted(blocks) && d.parent.Some? && d.parent.value in blocks
    ensures Rooted(blocks + {d})
  {
    forall e | e in blocks + {d} ensures ParentIn(blocks + {d}, e) {
      assert e == d || ParentIn(blocks, e);
    }
  }

  lemma IndexGrows(blocks: set<LcDigest>, tips: set<LcDigest>, d: LcDigest)
    requires IndexOk(blocks, tips) && d.parent.Some? && d.parent.value in blocks
    ensures IndexOk(blocks + {d}, tips - {d.parent.value} + {d})
  {
    forall e | e in blocks + {d} && IsLeaf(blocks + {d}, e) ensures e in tips - {d.parent.value} + {d} {
      if e != d {
        assert IsLeaf(blocks, e);
        assert d in blocks + {d};
      }
    }
  }

  /**
   Exactly when the index holds just the leaves after an addition: the added block has no child yet, and
   its parent was the only other block in the index.
   */
  lemma IndexExactIff(blocks: set<LcDigest>, tips: set<LcDigest>, d: LcDigest)
    requires IndexOk(blocks, tips) && d.parent.Some? && d.parent.value in blocks
    ensures IndexExact(blocks + {d}, tips - {d.parent.value} + {d}) <==>
            IsLeaf(blocks, d) && forall t :: t in tips && !IsLeaf(blocks, t) ==> t == d.parent.value
  {
    var more, tips' := blocks + {d}, tips - {d.parent.value} + {d};
    IndexGrows(blocks, tips, d);
    assert IsLeaf(more, d) <==> IsLeaf(blocks, d);
    forall t | t in tips && t != d.parent.value ensures IsLeaf(more, t) <==> IsLeaf(blocks, t) {
      assert d.parent != Some(t);
    }
    if IsLeaf(blocks, d) && forall t :: t in tips && !IsLeaf(blocks, t) ==> t == d.parent.value {
      forall t | t in tips' ensures IsLeaf(more, t) {
        assert t != d ==> t in tips && t != d.parent.value;
      }
    }
  }

  /** An exact index stays exact if and only if the added block is not the parent of a known block. */
  lemma IndexStaysExactIff(blocks: set<LcDigest>, tips: set<LcDigest>, d: LcDigest)
    requires IndexExact(blocks, tips) && d.parent.Some? && d.parent.value in blocks
    ensures IndexExact(blocks + {d}, tips - {d.parent.value} + {d}) <==> IsLeaf(blocks, d)
  {
    IndexExactIff(blocks, tips, d);
  }

  /** A block with a child that is added again goes back into the index, which is not exact then. */
  lemma IndexCanHoldInnerBlock()
    ensures var a := LcDigest(Some(GENESIS_LC), LcPayload("a", []), 1);
      var b := LcDigest(Some(a), LcPayload("b", []), 2);
      var blocks := {GENESIS_LC, a, b};
      && Rooted(blocks) && IndexExact(blocks, {b})
      && !IndexExact(blocks + {a}, {b} - {a.parent.value} + {a})
  {
    var a := LcDigest(Some(GENESIS_LC), LcPayload("a", []), 1);
    var b := LcDigest(Some(a), LcPayload("b", []), 2);
    var blocks := {GENESIS_LC, a, b};
    assert !IsLeaf(blocks, a) && !IsLeaf(blocks, GENESIS_LC) && IsLeaf(blocks, b);
    IndexExactIff(blocks, {b}, a);
  }

  lemma BetterThanAll(less: Order, seen: set<LcDigest>, checkpoint: LcDigest, tip: LcDigest, tip': LcDigest)
    requires TotalOrder(less) && (tip' == tip || Preferred(less, tip', tip))
    requires forall t :: t in seen && Prefix(checkpoint, t) && t != tip ==> Preferred(less, tip, t)
    ensures forall t :: t in seen && Prefix(checkpoint, t) && t != tip' ==> Preferred(less, tip', t)
  {
    forall t | t in seen && Prefix(checkpoint, t) && t != tip' ensures Preferred(less, tip', t) {
      if t != tip && tip' != tip {
        PreferredTransitive(less, tip', tip, t);
      }
    }
  }
}
