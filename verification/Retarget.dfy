/** The target of the next block: GetNextTargetRequired. */
module Retarget {
  import opened Arithmetic
  import opened Headers
  import opened BigNum

  const nTargetTimespan: nat := 30 * 60
  const BLOCK_SPACINGv3: nat := 240
  const NEW_TARGET_SPACING_FORK_BLOCK: nat := 390_000
  const TARGET_SPACING_V3_FORK_BLOCK: nat := 639_000

  datatype Params = Params(
    nStartPosv2Block: int, nStartPosvFork1Block: int, nStartPosvFork2Block: int,
    bnProofOfWorkLimit: nat, bnProofOfStakeLimit: nat, bnProofOfStakeLimitV2: nat,
    bnProofOfStakeLimitVFork1: nat, bnProofOfStakeLimitVFork2: nat)
  {
    predicate IsProtocolV2(nHeight: int) { nHeight > nStartPosv2Block }
    predicate IsProtocolVFork1(nHeight: int) { nHeight > nStartPosvFork1Block }
    predicate IsProtocolVFork2(nHeight: int) { nHeight > nStartPosvFork2Block }

    /** Limits fit in 256 bits, and are positive but for those of the forks: the test networks do
        not set these. */
    predicate Ok() {
      && 0 < bnProofOfWorkLimit < Pow256(32) && 0 < bnProofOfStakeLimit < Pow256(32)
      && 0 < bnProofOfStakeLimitV2 < Pow256(32) && bnProofOfStakeLimitVFork1 < Pow256(32)
      && bnProofOfStakeLimitVFork2 < Pow256(32)
    }

    /** The limit that applies to the block after height `nHeight`. */
    function TargetLimit(nHeight: nat, fProofOfStake: bool): (limit: nat)
      requires Ok()
      ensures limit < Pow256(32)
      ensures limit == 0 <==> fProofOfStake && IsProtocolVFork2(nHeight) && bnProofOfStakeLimitVFork2 == 0
    {
      if !fProofOfStake then bnProofOfWorkLimit
      else if IsProtocolVFork2(nHeight) then bnProofOfStakeLimitVFork2
      else FirstLimit(nHeight, fProofOfStake)
    }

    /** The limit as it is without the second fork; the first blocks of a kind get it. */
    function FirstLimit(nHeight: nat, fProofOfStake: bool): (limit: nat)
      requires Ok()
      ensures 0 < limit < Pow256(32)
    {
      if !fProofOfStake then bnProofOfWorkLimit
      else if IsProtocolV2(nHeight) then bnProofOfStakeLimitV2
      else bnProofOfStakeLimit
    }
  }

  // ----- the rule

  function LastOfKind(b: StakeIndex, fProofOfStake: bool): (r: StakeIndex)
    ensures r.StakeIndex? <==> b.StakeIndex?
  {
    if b.NoIndex? || b.pprev.NoIndex? || b.fProofOfStake == fProofOfStake then b else LastOfKind(b.pprev, fProofOfStake)
  }

  function Spacing(nHeight: nat): (s: nat)
    ensures s in {90, 120, 240} && (s == 90 <==> nHeight < 390_000) && (s == 240 <==> nHeight >= 639_000)
  {
    if nHeight < NEW_TARGET_SPACING_FORK_BLOCK then BLOCK_SPACINGv3 - 150
    else if nHeight < TARGET_SPACING_V3_FORK_BLOCK then BLOCK_SPACINGv3 - 120
    else BLOCK_SPACINGv3
  }

  function Interval(nHeight: nat): nat {
    nTargetTimespan / Spacing(nHeight)
  }

  /** The spacing of the last two blocks of the kind as the rule counts it. */
  function Counted(p: Params, nHeight: nat, nActual: int): (s: nat)
  {
    var a: int := if nActual < 0 then Spacing(nHeight) else nActual;
    var b := if p.IsProtocolVFork1(nHeight) && a > Spacing(nHeight) * 10 then Spacing(nHeight) * 10 else a;
    if p.IsProtocolVFork2(nHeight) && b > Spacing(nHeight) * 20 then Spacing(nHeight) * 20 else b
  }

  function Weight(nHeight: nat, nCounted: nat): (f: nat)
    ensures f > 0
  {
    (Interval(nHeight) - 1) * Spacing(nHeight) + nCounted + nCounted
  }

  function Divisor(nHeight: nat): (d: nat)
    ensures d > 0
  {
    (Interval(nHeight) + 1) * Spacing(nHeight)
  }

  /** BN_div rounds toward zero. */
  function BnDiv(a: int, d: nat): int
    requires d > 0
  {
    if a >= 0 then a / d else -((-a) / d)
  }

  /** The old target times weight over divisor, before the limit. */
  function Scaled(nHeight: nat, was: int, nCounted: nat): int {
    BnDiv(was * Weight(nHeight, nCounted), Divisor(nHeight))
  }

  function Limited(limit: nat, v: int): int {
    if v <= 0 || v > limit then limit else v
  }

  /** The target as a number, given the target of the last block of the kind and the time that
      passed between the last two. */
  function NextTarget(p: Params, nHeight: nat, fProofOfStake: bool, was: int, nActual: int): (v: int)
    requires p.Ok()
    ensures 0 <= v <= p.TargetLimit(nHeight, fProofOfStake)
    ensures v == 0 <==> p.TargetLimit(nHeight, fProofOfStake) == 0
  {
    Limited(p.TargetLimit(nHeight, fProofOfStake), Scaled(nHeight, was, Counted(p, nHeight, nActual)))
  }

  /** The target in its 32 bits. */
  function NextBits(p: Params, last: StakeIndex, fProofOfStake: bool): nat
    requires p.Ok() && last.StakeIndex?
  {
    var prev := LastOfKind(last, fProofOfStake);
    if prev.pprev.NoIndex? then ToCompact(p.FirstLimit(last.nHeight, fProofOfStake))
    else
      var prevPrev := LastOfKind(prev.pprev, fProofOfStake);
      if prevPrev.pprev.NoIndex? then ToCompact(p.FirstLimit(last.nHeight, fProofOfStake))
      else ToCompact(NextTarget(p, last.nHeight, fProofOfStake, FromCompact(prev.nBits), prev.nTime - prevPrev.nTime))
  }

  // ----- the code

  /** `r` is the block of the kind nearest to `b`, itself included, or else the root. */
  ghost predicate NearestOfKind(b: StakeIndex, fProofOfStake: bool, r: StakeIndex) {
    && r.StakeIndex? && (r == b || Below(r, b)) && (r.fProofOfStake == fProofOfStake || r.pprev.NoIndex?)
    && (forall c: StakeIndex | (c == b || Below(c, b)) && Below(r, c) :: c.fProofOfStake != fProofOfStake)
  }

  lemma {:induction false} LastOfKindIs(b: StakeIndex, fProofOfStake: bool, r: StakeIndex)
    requires b.StakeIndex?
    ensures r == LastOfKind(b, fProofOfStake) <==> NearestOfKind(b, fProofOfStake, r)
  {
    NothingBetween(b);
    if b.pprev.StakeIndex? && b.fProofOfStake != fProofOfStake {
      LastOfKindIs(b.pprev, fProofOfStake, r);
      assert Below(b.pprev, b);
    } else {
      assert b.pprev.NoIndex? ==> !Below(r, b.pprev);
      assert b.fProofOfStake == fProofOfStake && Below(r, b) ==> !NearestOfKind(b, fProofOfStake, r);
    }
  }

  method GetLastBlockIndex(b: StakeIndex, fProofOfStake: bool) returns (pindex: StakeIndex)
    ensures pindex == LastOfKind(b, fProofOfStake)
    ensures b.StakeIndex? ==> NearestOfKind(b, fProofOfStake, pindex)
  {
    pindex := b;
    while pindex.StakeIndex? && pindex.pprev.StakeIndex? && pindex.fProofOfStake != fProofOfStake
      invariant LastOfKind(pindex, fProofOfStake) == LastOfKind(b, fProofOfStake)
      decreases pindex
    {
      pindex := pindex.pprev;
    }
    if b.StakeIndex? {
      LastOfKindIs(b, fProofOfStake, pindex);
    }
  }

  /** A negative time counts as on schedule, and the forks limit how long a time counts. */
  method ClampSpacing(p: Params, nHeight: nat, nTargetSpacing: nat, nDiff: int) returns (nActualSpacing: int)
    requires nTargetSpacing == Spacing(nHeight)
    ensures nActualSpacing == Counted(p, nHeight, nDiff)
  {
    nActualSpacing := nDiff;
    if nActualSpacing < 0 {
      nActualSpacing := nTargetSpacing;
    }
    if nHeight > TARGET_SPACING_V3_FORK_BLOCK + 1 {
      if nActualSpacing < 0 {
        nActualSpacing := nTargetSpacing;
      }
    }
    if p.IsProtocolVFork1(nHeight) {
      if nActualSpacing > nTargetSpacing * 10 {
        nActualSpacing := nTargetSpacing * 10;
      }
    }
    if p.IsProtocolVFork2(nHeight) {
      if nActualSpacing > nTargetSpacing * 20 {
        nActualSpacing := nTargetSpacing * 20;
      }
    }
  }

  method ScaleTarget(bnNew: CBigNum, nHeight: nat, nTargetSpacing: nat, nActualSpacing: nat)
    requires nTargetSpacing == Spacing(nHeight)
    modifies bnNew
    ensures bnNew.value == Scaled(nHeight, old(bnNew.value), nActualSpacing)
  {
    hide BnDiv;
    var nInterval := nTargetTimespan / nTargetSpacing;
    bnNew.value := bnNew.value * ((nInterval - 1) * nTargetSpacing + nActualSpacing + nActualSpacing);
    bnNew.value := BnDiv(bnNew.value, (nInterval + 1) * nTargetSpacing);
  }

  method GetNextTargetRequired(p: Params, pindexLast: StakeIndex, fProofOfStake: bool) returns (nBits: nat)
    requires p.Ok() && pindexLast.StakeIndex? && LastOfKind(pindexLast, fProofOfStake).nBits < 0x1_0000_0000
    ensures nBits == NextBits(p, pindexLast, fProofOfStake)
  {
    hide ToCompact, FromCompact, Mpi, Pow256, LastOfKind, Counted, Scaled;
    var nHeight := pindexLast.nHeight;
    var bnTargetLimit := new CBigNum(p.FirstLimit(nHeight, fProofOfStake));
    var bnTargetLimitVFork2 := new CBigNum(if !fProofOfStake then p.bnProofOfWorkLimit
                                           else if p.IsProtocolVFork2(nHeight) then p.bnProofOfStakeLimitVFork2
                                           else p.bnProofOfStakeLimitVFork1);
    MpiLength(bnTargetLimit.value, 32);
    var pindexPrev := GetLastBlockIndex(pindexLast, fProofOfStake);
    if pindexPrev.pprev.NoIndex? {
      nBits := bnTargetLimit.GetCompact();
      return;
    }
    var pindexPrevPrev := GetLastBlockIndex(pindexPrev.pprev, fProofOfStake);
    if pindexPrevPrev.pprev.NoIndex? {
      nBits := bnTargetLimit.GetCompact();
      return;
    }
    var nTargetSpacing: nat := BLOCK_SPACINGv3;
    if nHeight < NEW_TARGET_SPACING_FORK_BLOCK {
      nTargetSpacing := BLOCK_SPACINGv3 - 150;
    } else if nHeight < TARGET_SPACING_V3_FORK_BLOCK {
      nTargetSpacing := BLOCK_SPACINGv3 - 120;
    }
    var nActualSpacing := ClampSpacing(p, nHeight, nTargetSpacing, pindexPrev.nTime - pindexPrevPrev.nTime);
    var bnNew := new CBigNum(0);
    bnNew.SetCompact(pindexPrev.nBits);
    ScaleTarget(bnNew, nHeight, nTargetSpacing, nActualSpacing);
    if p.IsProtocolVFork2(nHeight) {
      if bnNew.value <= 0 || bnNew.value > bnTargetLimitVFork2.value {
        bnNew.value := bnTargetLimitVFork2.value;
      }
    } else {
      if bnNew.value <= 0 || bnNew.value > bnTargetLimit.value {
        bnNew.value := bnTargetLimit.value;
      }
    }
    MpiLength(bnNew.value, 32);
    nBits := bnNew.GetCompact();
  }

  // ----- what the rule gives

  /** What the bits are by the two nearest blocks of the kind. */
  lemma NextBitsIs(p: Params, last: StakeIndex, fProofOfStake: bool, prev: StakeIndex, prevPrev: StakeIndex)
    requires p.Ok() && last.StakeIndex? && NearestOfKind(last, fProofOfStake, prev)
    requires prev.pprev.StakeIndex? ==> NearestOfKind(prev.pprev, fProofOfStake, prevPrev)
    ensures NextBits(p, last, fProofOfStake) ==
            if prev.pprev.NoIndex? || prevPrev.pprev.NoIndex? then
              ToCompact(if !fProofOfStake then p.bnProofOfWorkLimit else if last.nHeight > p.nStartPosv2Block then p.bnProofOfStakeLimitV2 else p.bnProofOfStakeLimit)
            else ToCompact(NextTarget(p, last.nHeight, fProofOfStake, FromCompact(prev.nBits), prev.nTime - prevPrev.nTime))
  {
    hide ToCompact, FromCompact, NextTarget, NearestOfKind, Pow256;
    LastOfKindIs(last, fProofOfStake, prev);
    if prev.pprev.StakeIndex? {
      LastOfKindIs(prev.pprev, fProofOfStake, prevPrev);
    }
  }

  /** The timespan as the rule has it: 240 does not divide half an hour. */
  function WholeSpan(nHeight: nat): nat {
    if nHeight < TARGET_SPACING_V3_FORK_BLOCK then 1800 else 1680
  }

  /** A target below the limit has moved by twice the error in the spacing, per whole timespan and
      one spacing more, rounded down. */
  lemma MovesByError(p: Params, nHeight: nat, fProofOfStake: bool, was: nat, nActual: nat)
    requires p.Ok() && LargeEnough(p, nHeight, was, nActual)
    requires (p.IsProtocolVFork1(nHeight) ==> nActual <= 10 * Spacing(nHeight)) && (p.IsProtocolVFork2(nHeight) ==> nActual <= 20 * Spacing(nHeight))
    ensures var v, limit := NextTarget(p, nHeight, fProofOfStake, was, nActual), p.TargetLimit(nHeight, fProofOfStake);
            var d := WholeSpan(nHeight) + Spacing(nHeight);
            var moved := was * d + 2 * was * (nActual - Spacing(nHeight));
            v * d <= moved && (v < limit ==> moved < (v + 1) * d)
  {
    hide Params.TargetLimit, Pow256;
    var s, d := Spacing(nHeight), WholeSpan(nHeight) + Spacing(nHeight);
    assert Divisor(nHeight) == d && Weight(nHeight, nActual) == d + 2 * (nActual - s);
    MovesBy(p, nHeight, fProofOfStake, was, nActual, d);
  }

  lemma MovesBy(p: Params, nHeight: nat, fProofOfStake: bool, was: nat, nActual: nat, d: nat)
    requires p.Ok() && LargeEnough(p, nHeight, was, nActual) && Counted(p, nHeight, nActual) == nActual
    requires Divisor(nHeight) == d && Weight(nHeight, nActual) == d + 2 * (nActual - Spacing(nHeight))
    ensures var v, limit := NextTarget(p, nHeight, fProofOfStake, was, nActual), p.TargetLimit(nHeight, fProofOfStake);
            var moved := was * d + 2 * was * (nActual - Spacing(nHeight));
            v * d <= moved && (v < limit ==> moved < (v + 1) * d)
  {
    hide Params.TargetLimit, Pow256, Weight, Divisor, Spacing, Counted;
    var s := Spacing(nHeight);
    ScaledPositive(nHeight, was, nActual);
    var q, v := Scaled(nHeight, was, nActual), NextTarget(p, nHeight, fProofOfStake, was, nActual);
    QuotientBounds(was * Weight(nHeight, nActual), d);
    Spread(was, d, 2, nActual - s);
    Scale(v, q, d);
    Distribute(v, 1, d);
    Distribute(q, 1, d);
  }

  lemma Spread(was: int, d: int, k: int, e: int)
    ensures was * (d + k * e) == was * d + k * was * e
  {
  }

  /** Which other spacing a spacing counts as. */
  lemma CountsAs(p: Params, nHeight: nat, fProofOfStake: bool, was: int, nActual: int)
    requires p.Ok()
    ensures var s := Spacing(nHeight);
            && (nActual < 0 ==> NextTarget(p, nHeight, fProofOfStake, was, nActual) == NextTarget(p, nHeight, fProofOfStake, was, s))
            && (p.IsProtocolVFork1(nHeight) && nActual > 10 * s ==>
                  NextTarget(p, nHeight, fProofOfStake, was, nActual) == NextTarget(p, nHeight, fProofOfStake, was, 10 * s))
            && (p.IsProtocolVFork2(nHeight) && nActual > 20 * s ==>
                  NextTarget(p, nHeight, fProofOfStake, was, nActual) == NextTarget(p, nHeight, fProofOfStake, was, 20 * s))
  {
    hide Scaled, Spacing, Pow256, Params.TargetLimit;
  }

  /** There are no two blocks of the kind yet to measure the time between. */
  predicate Early(last: StakeIndex, fProofOfStake: bool)
    requires last.StakeIndex?
  {
    var prev := LastOfKind(last, fProofOfStake);
    prev.pprev.NoIndex? || LastOfKind(prev.pprev, fProofOfStake).pprev.NoIndex?
  }

  /** The target in a new block is within the limit that applies there.  The first two blocks of
      a kind get the limit of before the second fork, also after it: then the target can exceed
      the limit of the fork. */
  lemma WithinLimit(p: Params, last: StakeIndex, fProofOfStake: bool)
    requires p.Ok() && last.StakeIndex?
    ensures var bits, limit, first := NextBits(p, last, fProofOfStake), p.TargetLimit(last.nHeight, fProofOfStake), p.FirstLimit(last.nHeight, fProofOfStake);
            && 0 <= FromCompact(bits)
            && (FromCompact(bits) <= limit <==>
                !Early(last, fProofOfStake) || !fProofOfStake || !p.IsProtocolVFork2(last.nHeight) || FromCompact(ToCompact(first)) <= limit)
            && (Early(last, fProofOfStake) ==> FromCompact(bits) <= first)
  {
    hide FromCompact, ToCompact, NextTarget, LastOfKind, Pow256;
    if Early(last, fProofOfStake) {
      CompactTruncates(p.FirstLimit(last.nHeight, fProofOfStake));
    } else {
      var prev := LastOfKind(last, fProofOfStake);
      var prevPrev := LastOfKind(prev.pprev, fProofOfStake);
      CompactTruncates(NextTarget(p, last.nHeight, fProofOfStake, FromCompact(prev.nBits), prev.nTime - prevPrev.nTime));
    }
  }

  /** A target of zero, which only a hash of zero meets, is required exactly where the limit of the second fork
      is zero and two blocks of stake came before. */
  lemma ZeroTarget(p: Params, last: StakeIndex, fProofOfStake: bool)
    requires p.Ok() && last.StakeIndex?
    ensures FromCompact(NextBits(p, last, fProofOfStake)) == 0 <==> NextBits(p, last, fProofOfStake) == 0
    ensures NextBits(p, last, fProofOfStake) == 0 <==>
            fProofOfStake && p.IsProtocolVFork2(last.nHeight) && p.bnProofOfStakeLimitVFork2 == 0 && !Early(last, fProofOfStake)
  {
    hide FromCompact, ToCompact, NextTarget, LastOfKind, Pow256, Params.TargetLimit, Params.FirstLimit;
    if Early(last, fProofOfStake) {
      ZeroCompact(p.FirstLimit(last.nHeight, fProofOfStake));
    } else {
      var prev := LastOfKind(last, fProofOfStake);
      var prevPrev := LastOfKind(prev.pprev, fProofOfStake);
      ZeroCompact(NextTarget(p, last.nHeight, fProofOfStake, FromCompact(prev.nBits), prev.nTime - prevPrev.nTime));
    }
  }

  lemma ZeroCompact(v: nat)
    ensures (ToCompact(v) == 0 <==> v == 0) && (Rounded(v) == 0 <==> v == 0)
  {
    hide FromCompact, ToCompact, Pow256;
    if v > 0 {
      RoundedAtLeast(1, v);
      ZeroBits();
    } else {
      ZeroBits();
      RoundedAtLeast(0, 0);
    }
  }

  lemma ZeroBits()
    ensures ToCompact(0) == 0 && FromCompact(0) == 0
  {
    assert Mpi(0) == [];
  }

  /** The old target is large enough for the rule: less would be taken for no target at all, and
      give the limit. */
  predicate LargeEnough(p: Params, nHeight: nat, was: int, nActual: int) {
    was * Weight(nHeight, Counted(p, nHeight, nActual)) >= Divisor(nHeight)
  }

  lemma ScaledPositive(nHeight: nat, was: int, nCounted: nat)
    ensures Scaled(nHeight, was, nCounted) > 0 <==> was * Weight(nHeight, nCounted) >= Divisor(nHeight)
  {
    hide Weight, Divisor;
    var v, d := was * Weight(nHeight, nCounted), Divisor(nHeight);
    if v >= d {
      QuotientAtLeast(v, d, 1);
    } else if v >= 0 {
      QuotientBounds(v, d);
      NotAbove(v / d, d);
    } else {
      QuotientAtLeast(-v, d, 0);
    }
  }

  /** The rule takes a longer time for a shorter one only where the one is negative. */
  lemma CountedInOrder(p: Params, nHeight: nat, a: int, b: int)
    requires a <= b
    ensures Counted(p, nHeight, a) <= Counted(p, nHeight, b) <==> !(a < 0 <= b < Spacing(nHeight))
  {
  }

  lemma ScaledInOrder(nHeight: nat, was: nat, a: nat, b: nat)
    requires a <= b
    ensures Scaled(nHeight, was, a) <= Scaled(nHeight, was, b)
  {
    hide Divisor;
    Scale(Weight(nHeight, a), Weight(nHeight, b), was);
    QuotientsInOrder(was * Weight(nHeight, a), was * Weight(nHeight, b), Divisor(nHeight));
  }

  /** The new target is the limit itself: the old one vanishes, or is scaled to the limit or
      beyond. */
  predicate GivesLimit(p: Params, nHeight: nat, fProofOfStake: bool, was: int, nActual: int)
    requires p.Ok()
  {
    || !LargeEnough(p, nHeight, was, nActual)
    || was * Weight(nHeight, Counted(p, nHeight, nActual)) >= p.TargetLimit(nHeight, fProofOfStake) * Divisor(nHeight)
  }

  lemma AtLimit(p: Params, nHeight: nat, fProofOfStake: bool, was: int, nActual: int)
    requires p.Ok()
    ensures NextTarget(p, nHeight, fProofOfStake, was, nActual) == p.TargetLimit(nHeight, fProofOfStake) <==>
            GivesLimit(p, nHeight, fProofOfStake, was, nActual)
  {
    hide Weight, Divisor, Counted, Params.TargetLimit;
    var limit, c, d := p.TargetLimit(nHeight, fProofOfStake), Counted(p, nHeight, nActual), Divisor(nHeight);
    ScaledPositive(nHeight, was, c);
    if LargeEnough(p, nHeight, was, nActual) {
      var v := was * Weight(nHeight, c);
      if v >= limit * d {
        QuotientAtLeast(v, d, limit);
      } else {
        QuotientBounds(v, d);
        CancelQuotient(v / d, limit, d);
      }
    }
  }

  lemma CancelQuotient(q: int, limit: int, d: nat)
    requires q * d < limit * d
    ensures q < limit
  {
    if q >= limit {
      Scale(limit, q, d);
    }
  }

  /** Ahead of schedule a target that does not vanish falls. */
  lemma FallsAhead(nHeight: nat, was: int, nCounted: nat)
    requires nCounted < Spacing(nHeight) && was * Weight(nHeight, nCounted) >= Divisor(nHeight)
    ensures Scaled(nHeight, was, nCounted) < was == Scaled(nHeight, was, Spacing(nHeight))
  {
    hide Spacing;
    var d, x := Divisor(nHeight), Weight(nHeight, nCounted);
    assert x < d == Weight(nHeight, Spacing(nHeight));
    hide Weight, Divisor;
    if was <= 0 {
      Scale(was, 0, x);
    }
    Product(was, x, d);
    QuotientBounds(was * x, d);
    CancelQuotient(was * x / d, was, d);
    Quotient(was, d, 0);
  }

  lemma Product(was: nat, x: nat, d: nat)
    requires was > 0 && x < d
    ensures was * x < was * d
  {
  }

  /** A longer time never gives a harder target exactly when it gives the limit anyway, or the
      old target does not vanish by the shorter one and the shorter one is not negative while the
      longer one is ahead of schedule. */
  lemma LongerIsEasier(p: Params, nHeight: nat, fProofOfStake: bool, was: int, a: int, b: int)
    requires p.Ok() && a <= b
    ensures NextTarget(p, nHeight, fProofOfStake, was, a) <= NextTarget(p, nHeight, fProofOfStake, was, b) <==>
            || GivesLimit(p, nHeight, fProofOfStake, was, b)
            || (LargeEnough(p, nHeight, was, a) && !(a < 0 <= b < Spacing(nHeight)))
    ensures NextTarget(p, nHeight, fProofOfStake, was, a) <= NextTarget(p, nHeight, fProofOfStake, was, b) ==>
            FromCompact(ToCompact(NextTarget(p, nHeight, fProofOfStake, was, a))) <= FromCompact(ToCompact(NextTarget(p, nHeight, fProofOfStake, was, b)))
  {
    hide Scaled, Weight, Divisor, FromCompact, ToCompact, Spacing, GivesLimit, Params.TargetLimit, Pow256;
    var ca, cb := Counted(p, nHeight, a), Counted(p, nHeight, b);
    AtLimit(p, nHeight, fProofOfStake, was, a);
    AtLimit(p, nHeight, fProofOfStake, was, b);
    ScaledPositive(nHeight, was, ca);
    ScaledPositive(nHeight, was, cb);
    CountedInOrder(p, nHeight, a, b);
    if ca <= cb && was >= 0 {
      ScaledInOrder(nHeight, was, ca, cb);
    } else if ca > cb && LargeEnough(p, nHeight, was, b) {
      FallsAhead(nHeight, was, cb);
    }
    if NextTarget(p, nHeight, fProofOfStake, was, a) <= NextTarget(p, nHeight, fProofOfStake, was, b) {
      CompactMonotone(NextTarget(p, nHeight, fProofOfStake, was, a), NextTarget(p, nHeight, fProofOfStake, was, b));
    }
  }

  /** The same, with the limit as it is encoded. */
  predicate GivesRoundedLimit(p: Params, nHeight: nat, fProofOfStake: bool, was: int, nActual: int)
    requires p.Ok()
  {
    || !LargeEnough(p, nHeight, was, nActual)
    || was * Weight(nHeight, Counted(p, nHeight, nActual)) >= Rounded(p.TargetLimit(nHeight, fProofOfStake)) * Divisor(nHeight)
  }

  /** The target that scaling gives before the limit, if the old one does not vanish, against a
      number that encodes to itself. */
  lemma ScaledAgainst(p: Params, nHeight: nat, was: int, nActual: int, r: nat)
    ensures was * Weight(nHeight, Counted(p, nHeight, nActual)) >= r * Divisor(nHeight) && LargeEnough(p, nHeight, was, nActual) ==>
              Scaled(nHeight, was, Counted(p, nHeight, nActual)) >= r
    ensures was * Weight(nHeight, Counted(p, nHeight, nActual)) < r * Divisor(nHeight) && LargeEnough(p, nHeight, was, nActual) ==>
              Scaled(nHeight, was, Counted(p, nHeight, nActual)) < r
  {
    hide Weight, Divisor, Counted;
    var v, d := was * Weight(nHeight, Counted(p, nHeight, nActual)), Divisor(nHeight);
    if LargeEnough(p, nHeight, was, nActual) {
      if v >= r * d {
        QuotientAtLeast(v, d, r);
      } else {
        QuotientBounds(v, d);
        CancelQuotient(v / d, r, d);
      }
    }
  }

  /** If the longer time gives the encoded limit, or the target does not vanish by the shorter one
      and the times count in order, the encoded targets are in order. */
  lemma RoundedInOrder(p: Params, nHeight: nat, fProofOfStake: bool, was: int, a: int, b: int)
    requires p.Ok() && a <= b
    requires GivesRoundedLimit(p, nHeight, fProofOfStake, was, b) || (LargeEnough(p, nHeight, was, a) && !(a < 0 <= b < Spacing(nHeight)))
    ensures Rounded(NextTarget(p, nHeight, fProofOfStake, was, a)) <= Rounded(NextTarget(p, nHeight, fProofOfStake, was, b))
  {
    hide Scaled, Weight, Divisor, Rounded, Spacing, Params.TargetLimit, Pow256, Counted, GivesLimit;
    var limit := p.TargetLimit(nHeight, fProofOfStake);
    var va, vb := NextTarget(p, nHeight, fProofOfStake, was, a), NextTarget(p, nHeight, fProofOfStake, was, b);
    if GivesRoundedLimit(p, nHeight, fProofOfStake, was, b) {
      RoundedTwice(limit);
      RoundedMonotone(va, limit);
      ScaledAgainst(p, nHeight, was, b, Rounded(limit));
      ScaledPositive(nHeight, was, Counted(p, nHeight, b));
      RoundedMonotone(Rounded(limit), vb);
    } else {
      LongerIsEasier(p, nHeight, fProofOfStake, was, a, b);
      RoundedMonotone(va, vb);
    }
  }

  lemma RoundedMonotone(v: nat, w: nat)
    ensures v <= w ==> Rounded(v) <= Rounded(w)
  {
    if v <= w {
      CompactMonotone(v, w);
    }
  }

  /** Otherwise the encoded target of the longer time is the harder one, when the old one is as
      encoding leaves it. */
  lemma RoundedOutOfOrder(p: Params, nHeight: nat, fProofOfStake: bool, was: int, a: int, b: int)
    requires p.Ok() && a <= b && (was > 0 ==> Rounded(was) == was)
    requires !GivesRoundedLimit(p, nHeight, fProofOfStake, was, b)
    requires !LargeEnough(p, nHeight, was, a) || a < 0 <= b < Spacing(nHeight)
    ensures Rounded(NextTarget(p, nHeight, fProofOfStake, was, a)) > Rounded(NextTarget(p, nHeight, fProofOfStake, was, b))
  {
    hide Scaled, Weight, Divisor, Rounded, Spacing, Params.TargetLimit, Pow256;
    var limit, ca, cb := p.TargetLimit(nHeight, fProofOfStake), Counted(p, nHeight, a), Counted(p, nHeight, b);
    var va, vb := NextTarget(p, nHeight, fProofOfStake, was, a), NextTarget(p, nHeight, fProofOfStake, was, b);
    RoundedTwice(limit);
    ScaledAgainst(p, nHeight, was, b, Rounded(limit));
    ScaledPositive(nHeight, was, ca);
    ScaledPositive(nHeight, was, cb);
    RoundedTwice(vb);
    if LargeEnough(p, nHeight, was, a) {
      FallsAhead(nHeight, was, cb);
    }
  }

  /** The target after two chains that differ only in the time of the last block: a later time never
      gives a harder one exactly when its own block, or the earlier one, meets the condition of
      LongerIsEasier.  For the other kind the time of the last block does not matter, and neither
      does it for the first two blocks. */
  lemma LaterIsEasier(p: Params, last: StakeIndex, fProofOfStake: bool, s: nat, t: nat)
    requires p.Ok() && last.StakeIndex? && Canonical(last.nBits) && s <= t
    ensures var at, later := NextBits(p, last.(nTime := s), fProofOfStake), NextBits(p, last.(nTime := t), fProofOfStake);
            if Early(last, fProofOfStake) || last.fProofOfStake != fProofOfStake then at == later
            else
              var was, before := FromCompact(last.nBits), LastOfKind(last.pprev, fProofOfStake).nTime;
              FromCompact(at) <= FromCompact(later) <==>
                || GivesRoundedLimit(p, last.nHeight, fProofOfStake, was, t - before)
                || (LargeEnough(p, last.nHeight, was, s - before) && !(s < before <= t < before + Spacing(last.nHeight)))
  {
    hide FromCompact, ToCompact, NextTarget, Canonical, LargeEnough, GivesRoundedLimit, Spacing, Pow256;
    if !Early(last, fProofOfStake) && last.fProofOfStake == fProofOfStake {
      var was, before := FromCompact(last.nBits), LastOfKind(last.pprev, fProofOfStake).nTime;
      CompactRoundTrip(last.nBits);
      if GivesRoundedLimit(p, last.nHeight, fProofOfStake, was, t - before) ||
         (LargeEnough(p, last.nHeight, was, s - before) && !(s < before <= t < before + Spacing(last.nHeight))) {
        RoundedInOrder(p, last.nHeight, fProofOfStake, was, s - before, t - before);
      } else {
        RoundedOutOfOrder(p, last.nHeight, fProofOfStake, was, s - before, t - before);
      }
    }
  }

  /** On schedule, and where time falls back, a canonical target within the limit stays as it is. */
  lemma OnScheduleUnchanged(p: Params, nHeight: nat, fProofOfStake: bool, nBits: nat, nActual: int)
    requires p.Ok() && Canonical(nBits) && (nActual == Spacing(nHeight) || nActual < 0) && 0 < FromCompact(nBits) <= p.TargetLimit(nHeight, fProofOfStake)
    ensures ToCompact(NextTarget(p, nHeight, fProofOfStake, FromCompact(nBits), nActual)) == nBits
  {
    hide Canonical, FromCompact, ToCompact, Spacing;
    var v, s := FromCompact(nBits), Spacing(nHeight);
    assert Counted(p, nHeight, nActual) == s;
    assert Weight(nHeight, s) == Divisor(nHeight);
    Quotient(v, Divisor(nHeight), 0);
    CompactRoundTrip(nBits);
  }

  /** After the first fork, a target that does not vanish rises by at most (I + 19) / (I + 1),
      where I is the interval. */
  lemma BoundedRise(p: Params, nHeight: nat, fProofOfStake: bool, was: nat, nActual: int)
    requires p.Ok() && p.IsProtocolVFork1(nHeight) && LargeEnough(p, nHeight, was, nActual)
    ensures NextTarget(p, nHeight, fProofOfStake, was, nActual) * (Interval(nHeight) + 1) <= was * (Interval(nHeight) + 19)
  {
    hide Interval;
    var i, s, c := Interval(nHeight), Spacing(nHeight), Counted(p, nHeight, nActual);
    var v := NextTarget(p, nHeight, fProofOfStake, was, nActual);
    ScaledPositive(nHeight, was, c);
    QuotientBounds(was * Weight(nHeight, c), Divisor(nHeight));
    assert v <= Scaled(nHeight, was, c);
    Scale(v, Scaled(nHeight, was, c), Divisor(nHeight));
    assert c <= 10 * s;
    Cancel(v, i, s, was, c);
  }

  lemma Cancel(v: nat, i: nat, s: nat, was: nat, c: nat)
    requires s > 0 && v * ((i + 1) * s) <= was * ((i - 1) * s + c + c) && c <= 10 * s
    ensures v * (i + 1) <= was * (i + 19)
  {
    assert (i - 1) * s + 20 * s == (i + 19) * s;
    ScaleRight(was, (i - 1) * s + c + c, (i + 19) * s);
    assert v * ((i + 1) * s) == (v * (i + 1)) * s;
    assert was * ((i + 19) * s) == (was * (i + 19)) * s;
    Divide(v * (i + 1), was * (i + 19), s);
  }

  lemma Divide(a: nat, b: nat, s: nat)
    requires s > 0 && a * s <= b * s
    ensures a <= b
  {
    Quotient(a, s, 0);
    Quotient(b, s, 0);
    QuotientsInOrder(a * s, b * s, s);
  }
}
