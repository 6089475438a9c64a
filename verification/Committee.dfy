/**
 The voting committee: who holds how much stake, and what a quorum is.
 */
module Committees {

  const U32 := 0x1_0000_0000

  datatype PublicKey = PublicKey(bytes: nat)

  /** The threshold as `u32` arithmetic computes it for a total stake of `n`. */
  function WrappedThreshold(n: nat): nat {
    2 * (n % U32) % U32 / 3 + 1
  }

  /** The stake that may be Byzantine when the total is `n`. */
  function MaxFaulty(n: nat): nat {
    if n == 0 then 0 else (n - 1) / 3
  }

  datatype Committee = Committee(authorities: map<PublicKey, nat>) {

    function Stake(name: PublicKey): nat {
      if name in authorities then authorities[name] else 0
    }

    ghost function StakeOf(s: set<PublicKey>): nat {
      if s == {} then 0
      else
        var x :| x in s;
        Stake(x) + StakeOf(s - {x})
    }

    ghost function Total(): nat {
      StakeOf(authorities.Keys)
    }

    ghost function Quorum(): nat {
      WrappedThreshold(Total())
    }

    /** The range in which twice the total stake still fits in `u32`. */
    ghost predicate Sound() {
      0 < Total() < U32 / 2
    }

    method QuorumThreshold() returns (q: nat)
      ensures q == Quorum()
    {
      var total := 0;
      var rest := authorities.Keys;
      while rest != {}
        invariant rest <= authorities.Keys
        invariant total == StakeOf(authorities.Keys - rest) % U32
      {
        var name :| name in rest;
        StakeOfAdd(this, authorities.Keys - rest, name);
        assert authorities.Keys - (rest - {name}) == authorities.Keys - rest + {name};
        total := (total + authorities[name]) % U32;
        rest := rest - {name};
      }
      assert authorities.Keys - rest == authorities.Keys;
      q := 2 * total % U32 / 3 + 1;
    }
  }

  /** The computed threshold is N - f exactly when twice the total does not overflow `u32`. */
  lemma ThresholdIsTotalMinusFaulty(n: nat)
    requires n > 0
    ensures WrappedThreshold(n) == n - MaxFaulty(n) <==> n < U32 / 2
  {
  }

  // Sums of stake over sets of authorities

  lemma {:induction false} StakeOfAdd(c: Committee, s: set<PublicKey>, x: PublicKey)
    requires x !in s
    ensures c.StakeOf(s + {x}) == c.StakeOf(s) + c.Stake(x)
  {
    var t := s + {x};
    var y :| y in t && c.StakeOf(t) == c.Stake(y) + c.StakeOf(t - {y});
    if y == x {
      assert t - {y} == s;
    } else {
      var rest := s - {y};
      assert t - {y} == rest + {x};
      StakeOfAdd(c, rest, x);
      StakeOfAdd(c, rest, y);
      assert rest + {y} == s;
    }
  }

  lemma {:induction false} StakeOfDisjoint(c: Committee, s: set<PublicKey>, t: set<PublicKey>)
    requires s !! t
    ensures c.StakeOf(s + t) == c.StakeOf(s) + c.StakeOf(t)
  {
    if t == {} {
      assert s + t == s;
    } else {
      var x :| x in t;
      StakeOfDisjoint(c, s, t - {x});
      StakeOfAdd(c, s + (t - {x}), x);
      StakeOfAdd(c, t - {x}, x);
      assert s + (t - {x}) + {x} == s + t;
      assert t - {x} + {x} == t;
    }
  }

  lemma StakeOfSubset(c: Committee, s: set<PublicKey>, t: set<PublicKey>)
    requires s <= t
    ensures c.StakeOf(s) <= c.StakeOf(t)
  {
    StakeOfDisjoint(c, s, t - s);
    assert s + (t - s) == t;
  }

  lemma {:induction false} StakeOfOutsiders(c: Committee, s: set<PublicKey>)
    requires forall x :: x in s ==> c.Stake(x) == 0
    ensures c.StakeOf(s) == 0
  {
    if s != {} {
      var x :| x in s;
      StakeOfOutsiders(c, s - {x});
      StakeOfAdd(c, s - {x}, x);
      assert s - {x} + {x} == s;
    }
  }

  lemma StakeOfAtMostTotal(c: Committee, s: set<PublicKey>)
    ensures c.StakeOf(s) <= c.Total()
  {
    var inside, outside := s * c.authorities.Keys, s - c.authorities.Keys;
    StakeOfDisjoint(c, inside, outside);
    assert inside + outside == s;
    StakeOfOutsiders(c, outside);
    StakeOfSubset(c, inside, c.authorities.Keys);
  }

  lemma StakeOfUnionAndIntersection(c: Committee, s: set<PublicKey>, t: set<PublicKey>)
    ensures c.StakeOf(s) + c.StakeOf(t) == c.StakeOf(s + t) + c.StakeOf(s * t)
  {
    StakeOfDisjoint(c, s, t - s);
    assert s + (t - s) == s + t;
    StakeOfDisjoint(c, t - s, s * t);
    assert t - s + s * t == t;
  }

  /** Two quorums share more stake than may be Byzantine, hence an honest authority with stake. */
  lemma QuorumsShareHonest(c: Committee, honest: set<PublicKey>, s: set<PublicKey>, t: set<PublicKey>)
    returns (h: PublicKey)
    requires c.Sound()
    requires c.StakeOf(c.authorities.Keys - honest) <= MaxFaulty(c.Total())
    requires c.StakeOf(s) >= c.Quorum() && c.StakeOf(t) >= c.Quorum()
    ensures c.StakeOf(s * t) > MaxFaulty(c.Total())
    ensures h in s && h in t && h in honest && c.Stake(h) > 0
  {
    ThresholdIsTotalMinusFaulty(c.Total());
    StakeOfUnionAndIntersection(c, s, t);
    StakeOfAtMostTotal(c, s + t);
    var shared := s * t;
    if forall x :: x in shared && x in honest ==> c.Stake(x) == 0 {
      var bad, rest := shared * (c.authorities.Keys - honest), shared - (c.authorities.Keys - honest);
      StakeOfDisjoint(c, bad, rest);
      assert bad + rest == shared;
      StakeOfSubset(c, bad, c.authorities.Keys - honest);
      StakeOfOutsiders(c, rest);
      assert false;
    }
    h :| h in shared && h in honest && c.Stake(h) > 0;
  }

  /** After a quorum has been counted, the remaining stake cannot form another one. */
  lemma LeftoverBelowQuorum(c: Committee, counted: set<PublicKey>, later: set<PublicKey>)
    requires c.Sound() && counted !! later
    requires c.StakeOf(counted) >= c.Quorum()
    ensures c.StakeOf(later) < c.Quorum()
  {
    ThresholdIsTotalMinusFaulty(c.Total());
    StakeOfDisjoint(c, counted, later);
    StakeOfAtMostTotal(c, counted + later);
  }
}
