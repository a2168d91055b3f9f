/** Chains that AcceptBlock takes, by their times and targets, on which the rule for the next target
    does what one might not expect. */
module RetargetRuns {
  import opened Arithmetic
  import opened Radix
  import opened Headers
  import opened BlockTimes
  import opened BigNum
  import opened Retarget

  /** The bits of every block above the root are those that the rule gives. */
  ghost predicate BitsTo(p: Params, b: StakeIndex)
    requires p.Ok()
  {
    b.StakeIndex? && b.pprev.StakeIndex? ==> BitsTo(p, b.pprev) && b.nBits == NextBits(p, b.pprev, b.fProofOfStake)
  }

  /** Proof-of-work ends at this height. */
  ghost predicate WorkEndsTo(nLastPOWBlock: nat, b: StakeIndex) {
    b.StakeIndex? && b.pprev.StakeIndex? ==> WorkEndsTo(nLastPOWBlock, b.pprev) && (!b.fProofOfStake ==> b.nHeight <= nLastPOWBlock)
  }

  function Times(p: Params): TimeRules {
    TimeRules(p.nStartPosv2Block, p.nStartPosvFork2Block)
  }

  /** AcceptBlock takes the blocks above the root, as far as heights, times and targets go. */
  ghost predicate AcceptedChain(p: Params, nLastPOWBlock: nat, b: StakeIndex)
    requires p.Ok()
  {
    BitsTo(p, b) && TimesAcceptedTo(Times(p), b) && WorkEndsTo(nLastPOWBlock, b)
  }

  /** A block on top of `b`, with the bits that are required of it. */
  function Mined(p: Params, b: StakeIndex, fProofOfStake: bool, nTime: nat): StakeIndex
    requires p.Ok() && b.StakeIndex?
  {
    StakeIndex(b, b.nHeight + 1, b.nHeight + 1, nTime, NextBits(p, b, fProofOfStake), 0, fProofOfStake, false, {}, false)
  }

  /** The bits that the rule gives are canonical, and those of a number within the limit. */
  lemma MinedBits(p: Params, last: StakeIndex, fProofOfStake: bool)
    requires p.Ok() && last.StakeIndex?
    ensures Canonical(NextBits(p, last, fProofOfStake)) && 0 <= FromCompact(NextBits(p, last, fProofOfStake))
  {
    hide FromCompact, ToCompact, NextTarget, Canonical, Pow256;
    WithinLimit(p, last, fProofOfStake);
    if Early(last, fProofOfStake) {
      ToCompactCanonical(p.FirstLimit(last.nHeight, fProofOfStake));
    } else {
      var prev := LastOfKind(last, fProofOfStake);
      var prevPrev := LastOfKind(prev.pprev, fProofOfStake);
      ToCompactCanonical(NextTarget(p, last.nHeight, fProofOfStake, FromCompact(prev.nBits), prev.nTime - prevPrev.nTime));
    }
  }

  // ----- times that rise

  /** No time of the last blocks is later than that of the last one. */
  ghost predicate Latest(b: StakeIndex)
    requires b.StakeIndex?
  {
    forall t | t in PastTimes(b, nMedianTimeSpan) :: t <= b.nTime
  }

  lemma MedianIsThere(b: StakeIndex)
    requires b.StakeIndex?
    ensures MedianTime(b) in PastTimes(b, nMedianTimeSpan)
  {
    hide PastTimes;
    var s := PastTimes(b, nMedianTimeSpan);
    OrderedIsSorted(s);
    assert Ordered(s)[|s| / 2] in multiset(Ordered(s));
  }

  lemma {:induction false} FewerTimes(b: StakeIndex, n: nat, t: nat)
    ensures t in PastTimes(b, n) ==> t in PastTimes(b, n + 1)
  {
    if b.StakeIndex? && n > 0 {
      FewerTimes(b.pprev, n - 1, t);
    }
  }

  lemma TimesOf(b: StakeIndex, n: nat)
    requires b.StakeIndex?
    ensures PastTimes(b, n + 1) == PastTimes(b.pprev, n) + [b.nTime]
  {
  }

  /** A block at any time later than all of the last ones is taken. */
  lemma LaterAccepted(r: TimeRules, b: StakeIndex, c: StakeIndex)
    requires b.StakeIndex? && TimesAcceptedTo(r, b)
    requires c.StakeIndex? && c.pprev == b && c.nHeight == b.nHeight + 1 && forall t | t in PastTimes(b, nMedianTimeSpan) :: t < c.nTime
    ensures TimesAcceptedTo(r, c) && Latest(c) && b.nTime < c.nTime
  {
    hide PastTimes, MedianTime;
    MedianIsThere(b);
    TimesOf(b, nMedianTimeSpan - 1);
    TimesOf(c, nMedianTimeSpan - 1);
    assert b.nTime in PastTimes(b.pprev, nMedianTimeSpan - 1) + [b.nTime];
    forall t | t in PastTimes(c, nMedianTimeSpan) ensures t <= c.nTime {
      FewerTimes(b, nMedianTimeSpan - 1, t);
    }
  }

  function LatestOf(s: seq<nat>): (m: nat)
    ensures forall t | t in s :: t <= m
  {
    if s == [] then 0
    else
      var k := |s| - 1;
      var m := LatestOf(s[..k]);
      assert s == s[..k] + [s[k]];
      if m < s[k] then s[k] else m
  }

  // ----- times that fall back

  const GENESIS_TIME: nat := 1_488_375_642

  /** Three blocks on the genesis block: the second on schedule after the first, the third at `t`. */
  function Back(p: Params, t: nat): StakeIndex
    requires p.Ok()
  {
    Mined(p, OnSchedule(p), false, t)
  }

  function OnSchedule(p: Params): StakeIndex
    requires p.Ok()
  {
    Mined(p, Mined(p, Genesis(p), false, GENESIS_TIME + 10), false, GENESIS_TIME + 100)
  }

  function Genesis(p: Params): StakeIndex {
    StakeIndex(NoIndex, 0, 0, GENESIS_TIME, ToCompact(p.bnProofOfWorkLimit), 0, false, false, {}, true)
  }

  lemma BackTimes(p: Params, r: TimeRules, t: nat)
    requires p.Ok() && r.nStartPosv2Block > 3 && GENESIS_TIME + 99 <= t <= GENESIS_TIME + 100
    ensures TimesAcceptedTo(r, Back(p, t))
  {
    hide NextBits, MedianTime, Params.Ok, ToCompact;
    var g := Genesis(p);
    var b1 := Mined(p, g, false, GENESIS_TIME + 10);
    MediansOfThree(g, b1, OnSchedule(p));
    assert TimesAcceptedTo(r, b1);
    assert TimesAcceptedTo(r, OnSchedule(p));
  }

  lemma MediansOfThree(g: StakeIndex, b1: StakeIndex, b2: StakeIndex)
    requires g.StakeIndex? && b1.StakeIndex? && b2.StakeIndex? && g.pprev.NoIndex? && b1.pprev == g && b2.pprev == b1
    requires g.nTime <= b1.nTime <= b2.nTime
    ensures MedianTime(g) == g.nTime && MedianTime(b1) == b1.nTime && MedianTime(b2) == b1.nTime
  {
    hide PastTimes, Ordered;
    PastOfThree(g, b1, b2);
    OrderedAlready([g.nTime]);
    OrderedAlready([g.nTime, b1.nTime]);
    OrderedAlready([g.nTime, b1.nTime, b2.nTime]);
  }

  lemma PastOfThree(g: StakeIndex, b1: StakeIndex, b2: StakeIndex)
    requires g.StakeIndex? && b1.StakeIndex? && b2.StakeIndex? && g.pprev.NoIndex? && b1.pprev == g && b2.pprev == b1
    ensures PastTimes(g, nMedianTimeSpan) == [g.nTime] && PastTimes(b1, nMedianTimeSpan) == [g.nTime, b1.nTime]
    ensures PastTimes(b2, nMedianTimeSpan) == [g.nTime, b1.nTime, b2.nTime]
  {
    hide PastTimes;
    NoTimes(nMedianTimeSpan - 1);
    NoTimes(nMedianTimeSpan - 2);
    NoTimes(nMedianTimeSpan - 3);
    TimesOf(g, nMedianTimeSpan - 1);
    TimesOf(g, nMedianTimeSpan - 2);
    TimesOf(g, nMedianTimeSpan - 3);
    TimesOf(b1, nMedianTimeSpan - 1);
    TimesOf(b1, nMedianTimeSpan - 2);
    TimesOf(b2, nMedianTimeSpan - 1);
  }

  lemma NoTimes(n: nat)
    ensures PastTimes(NoIndex, n) == []
  {
  }

  /** The first two blocks get the limit, and so does the third, as the second was on schedule. */
  lemma BackBits(p: Params, t: nat)
    requires p.Ok()
    ensures var b := Back(p, t);
            && BitsTo(p, b) && b.nBits == ToCompact(p.bnProofOfWorkLimit) && b.nHeight == 3 && !Early(b, false)
            && LastOfKind(b.pprev, false) == OnSchedule(p) && OnSchedule(p).nTime == GENESIS_TIME + 100
  {
    hide ToCompact, FromCompact, NextTarget, Pow256, Canonical;
    var c := ToCompact(p.bnProofOfWorkLimit);
    var g := Genesis(p);
    var b1 := Mined(p, g, false, GENESIS_TIME + 10);
    var b2 := OnSchedule(p);
    ToCompactCanonical(p.bnProofOfWorkLimit);
    RoundedTwice(p.bnProofOfWorkLimit);
    RoundedAtLeast(1, p.bnProofOfWorkLimit);
    assert b1.nBits == c && BitsTo(p, b1);
    assert b2.nBits == c && BitsTo(p, b2);
    OnScheduleUnchanged(p, 2, false, c, 90);
    assert NextBits(p, b2, false) == ToCompact(NextTarget(p, 2, false, FromCompact(c), 90));
  }

  lemma BackWork(p: Params, nLastPOWBlock: nat, t: nat)
    requires p.Ok() && nLastPOWBlock >= 3
    ensures WorkEndsTo(nLastPOWBlock, Back(p, t))
  {
    hide NextBits, ToCompact;
    assert WorkEndsTo(nLastPOWBlock, Genesis(p));
    assert WorkEndsTo(nLastPOWBlock, Mined(p, Genesis(p), false, GENESIS_TIME + 10));
    assert WorkEndsTo(nLastPOWBlock, OnSchedule(p));
  }

  /** Blocks whose times fall back give an easier target than blocks that come at the same second:
      on every network that starts with the first protocol, two chains that AcceptBlock takes and
      that differ only in the time of the last block. */
  lemma FallingBackCanBeEasier(p: Params, nLastPOWBlock: nat)
    requires p.Ok() && p.bnProofOfWorkLimit >= 2 && p.nStartPosv2Block > 3 && nLastPOWBlock >= 3
    ensures var early, late := Back(p, GENESIS_TIME + 99), Back(p, GENESIS_TIME + 100);
            && AcceptedChain(p, nLastPOWBlock, early) && AcceptedChain(p, nLastPOWBlock, late) && early == late.(nTime := GENESIS_TIME + 99)
            && FromCompact(NextBits(p, early, false)) > FromCompact(NextBits(p, late, false))
  {
    hide NextBits, ToCompact, FromCompact, Canonical, Params.Ok;
    var late, was := Back(p, GENESIS_TIME + 100), Rounded(p.bnProofOfWorkLimit);
    BackTimes(p, Times(p), GENESIS_TIME + 99);
    BackTimes(p, Times(p), GENESIS_TIME + 100);
    BackBits(p, GENESIS_TIME + 99);
    BackBits(p, GENESIS_TIME + 100);
    BackWork(p, nLastPOWBlock, GENESIS_TIME + 99);
    BackWork(p, nLastPOWBlock, GENESIS_TIME + 100);
    ToCompactCanonical(p.bnProofOfWorkLimit);
    RoundedAtLeast(2, p.bnProofOfWorkLimit);
    assert Weight(3, 0) == 1710 && Divisor(3) == 1890 && Counted(p, 3, 0) == 0;
    LaterIsEasier(p, late, false, GENESIS_TIME + 99, GENESIS_TIME + 100);
  }

  // ----- stake blocks in quick succession

  /** Proof-of-stake blocks on top of `b`, sixteen seconds from one to the next; times of stake are
      multiples of that. */
  function Quick(p: Params, b: StakeIndex, n: nat): (c: StakeIndex)
    requires p.Ok() && b.StakeIndex?
    ensures c.StakeIndex? && c.nHeight == b.nHeight + n
    ensures n > 0 ==> c.fProofOfStake
  {
    if n == 0 then b
    else
      var c := Quick(p, b, n - 1);
      Mined(p, c, true, 16 + if n == 1 then LatestOf(PastTimes(b, nMedianTimeSpan)) / 16 * 16 else c.nTime)
  }

  lemma {:induction false} QuickAccepted(p: Params, nLastPOWBlock: nat, b: StakeIndex, n: nat)
    requires p.Ok() && b.StakeIndex? && AcceptedChain(p, nLastPOWBlock, b)
    ensures AcceptedChain(p, nLastPOWBlock, Quick(p, b, n)) && (n > 0 ==> Latest(Quick(p, b, n)))
  {
    hide NextBits, PastTimes, TimeAccepted;
    if n > 0 {
      QuickAccepted(p, nLastPOWBlock, b, n - 1);
      var c := Quick(p, b, n - 1);
      LaterAccepted(Times(p), c, Quick(p, b, n));
    }
  }

  /** From the second on the target is that of the one before, scaled. */
  lemma QuickBits(p: Params, b: StakeIndex, n: nat)
    requires p.Ok() && b.StakeIndex? && n >= 2
    ensures var c := Quick(p, b, n);
            && !Early(c, true) && LastOfKind(c, true) == c && LastOfKind(c.pprev, true) == c.pprev == Quick(p, b, n - 1)
            && c.nTime == c.pprev.nTime + 16
            && Quick(p, b, n + 1).nBits == NextBits(p, c, true) == ToCompact(NextTarget(p, c.nHeight, true, FromCompact(c.nBits), 16))
  {
    hide NextTarget, ToCompact, FromCompact;
    assert Quick(p, b, n).pprev == Quick(p, b, n - 1) && Quick(p, b, n - 1).pprev == Quick(p, b, n - 2);
  }

  lemma QuickWeight(p: Params, nHeight: nat)
    ensures Counted(p, nHeight, 16) == 16 < Spacing(nHeight)
    ensures Weight(nHeight, 16) < Divisor(nHeight) <= 2 * Weight(nHeight, 16)
  {
  }

  /** As long as it is more than one, the target falls, and stays positive. */
  lemma QuickFalls(p: Params, nHeight: nat, was: nat)
    requires p.Ok() && was >= 2 && p.TargetLimit(nHeight, true) >= 1
    ensures 1 <= Rounded(NextTarget(p, nHeight, true, was, 16)) < was
  {
    hide Rounded, Params.TargetLimit, Weight, Divisor, Spacing, Pow256;
    QuickWeight(p, nHeight);
    ScaleRight(Weight(nHeight, 16), 2, was);
    Commute(Weight(nHeight, 16), was);
    ScaledPositive(nHeight, was, 16);
    FallsAhead(nHeight, was, 16);
    var v := NextTarget(p, nHeight, true, was, 16);
    RoundedTwice(v);
    RoundedAtLeast(1, v);
  }

  lemma {:induction false} QuickReachesOne(p: Params, b: StakeIndex, n: nat) returns (m: nat)
    requires p.Ok() && b.StakeIndex? && n >= 2 && FromCompact(Quick(p, b, n).nBits) >= 1
    requires p.bnProofOfStakeLimitVFork2 >= 1
    ensures m >= 2 && FromCompact(Quick(p, b, m).nBits) == 1
    decreases FromCompact(Quick(p, b, n).nBits)
  {
    hide NextTarget, ToCompact, FromCompact, Quick, NextBits, Pow256;
    var c := Quick(p, b, n);
    if FromCompact(c.nBits) == 1 {
      m := n;
    } else {
      QuickBits(p, b, n);
      QuickFalls(p, c.nHeight, FromCompact(c.nBits));
      m := QuickReachesOne(p, b, n + 1);
    }
  }

  /** Every chain that AcceptBlock takes has a continuation that it takes, of stake blocks in quick
      succession, which ends with the hardest target there is; then one more quick block gives the
      limit, while the same block on schedule leaves the target as it is. */
  lemma FasterCanBeEasier(p: Params, nLastPOWBlock: nat, b: StakeIndex) returns (n: nat)
    requires p.Ok() && b.StakeIndex? && AcceptedChain(p, nLastPOWBlock, b)
    requires p.bnProofOfStakeLimit > 1 && p.bnProofOfStakeLimitV2 > 1 && p.bnProofOfStakeLimitVFork2 > 1
    ensures n >= 2
    ensures var fast := Quick(p, b, n); var slow := fast.(nTime := fast.pprev.nTime + Spacing(fast.nHeight));
            && AcceptedChain(p, nLastPOWBlock, fast) && AcceptedChain(p, nLastPOWBlock, slow)
            && NextBits(p, fast, true) == ToCompact(p.TargetLimit(fast.nHeight, true)) && NextBits(p, slow, true) == fast.nBits
            && FromCompact(NextBits(p, fast, true)) > FromCompact(NextBits(p, slow, true)) == 1
  {
    hide NextBits, NextTarget, ToCompact, FromCompact, Quick, Pow256, Weight, Divisor, Spacing, Counted;
    SecondIsPositive(p, b);
    n := QuickReachesOne(p, b, 2);
    QuickBits(p, b, n);
    var fast := Quick(p, b, n);
    var slow := fast.(nTime := fast.pprev.nTime + Spacing(fast.nHeight));
    QuickAccepted(p, nLastPOWBlock, b, n);
    QuickWeight(p, fast.nHeight);
    AtLimit(p, fast.nHeight, true, 1, 16);
    RoundedAtLeast(2, p.TargetLimit(fast.nHeight, true));
    SlowBits(p, b, n);
    SlowAccepted(p, nLastPOWBlock, b, n);
  }

  lemma SecondIsPositive(p: Params, b: StakeIndex)
    requires p.Ok() && b.StakeIndex? && p.bnProofOfStakeLimitVFork2 >= 1
    ensures FromCompact(Quick(p, b, 2).nBits) >= 1
  {
    hide NextBits, FromCompact, Pow256;
    var c := Quick(p, b, 1);
    ZeroTarget(p, c, true);
    MinedBits(p, c, true);
    assert Quick(p, b, 2).nBits == NextBits(p, c, true);
  }

  lemma SlowBits(p: Params, b: StakeIndex, n: nat)
    requires p.Ok() && b.StakeIndex? && n >= 2 && FromCompact(Quick(p, b, n).nBits) == 1 <= p.TargetLimit(b.nHeight + n, true)
    ensures var fast := Quick(p, b, n); var slow := fast.(nTime := fast.pprev.nTime + Spacing(fast.nHeight));
            NextBits(p, slow, true) == fast.nBits
  {
    hide NextTarget, ToCompact, FromCompact, Pow256, Spacing, Canonical;
    var fast := Quick(p, b, n);
    QuickBits(p, b, n);
    assert fast.nBits == NextBits(p, fast.pprev, true);
    MinedBits(p, fast.pprev, true);
    OnScheduleUnchanged(p, fast.nHeight, true, fast.nBits, Spacing(fast.nHeight));
  }

  lemma SlowAccepted(p: Params, nLastPOWBlock: nat, b: StakeIndex, n: nat)
    requires p.Ok() && b.StakeIndex? && AcceptedChain(p, nLastPOWBlock, b) && n >= 2
    ensures var fast := Quick(p, b, n); AcceptedChain(p, nLastPOWBlock, fast.(nTime := fast.pprev.nTime + Spacing(fast.nHeight)))
  {
    hide NextBits, PastTimes, TimeAccepted;
    QuickAccepted(p, nLastPOWBlock, b, n - 1);
    QuickAccepted(p, nLastPOWBlock, b, n);
    var fast := Quick(p, b, n);
    LaterAccepted(Times(p), fast.pprev, fast.(nTime := fast.pprev.nTime + Spacing(fast.nHeight)));
  }

  // ----- the test networks

  /** The test network; the second fork and its limit are not set. */
  function TestNet(): (p: Params)
    ensures p.Ok()
  {
    PowersOfTestNet();
    Params(2000, 3000, 0, Pow256(30) - 1, 16 * Pow256(29) - 1, Pow256(30) - 1, 0, 0)
  }

  /** The regression test network. */
  function RegTest(): (p: Params)
    ensures p.Ok()
  {
    PowersOfTestNet();
    Params(-1, -1, 0, 128 * Pow256(31) - 1, 16 * Pow256(29) - 1, Pow256(30) - 1, 0, 0)
  }

  lemma PowersOfTestNet()
    ensures 1 < Pow256(29) && Pow256(30) == 256 * Pow256(29) && Pow256(31) == 256 * Pow256(30) && Pow256(32) == 256 * Pow256(31)
  {
  }

  /** Blocks of proof-of-work on the genesis block, on schedule. */
  function WorkChain(p: Params, n: nat): (b: StakeIndex)
    requires p.Ok()
    ensures b.StakeIndex? && b.nHeight == n && !b.fProofOfStake && (n > 0 <==> b.pprev.StakeIndex?)
  {
    if n == 0 then Genesis(p) else Mined(p, WorkChain(p, n - 1), false, GENESIS_TIME + 90 * n)
  }

  lemma {:induction false} WorkChainAccepted(p: Params, nLastPOWBlock: nat, n: nat)
    requires p.Ok() && n <= nLastPOWBlock
    ensures AcceptedChain(p, nLastPOWBlock, WorkChain(p, n)) && Latest(WorkChain(p, n)) && WorkChain(p, n).nTime == GENESIS_TIME + 90 * n
  {
    hide NextBits, PastTimes, TimeAccepted;
    if n == 0 {
      TimesOf(Genesis(p), nMedianTimeSpan - 1);
      NoTimes(nMedianTimeSpan - 1);
    } else {
      WorkChainAccepted(p, nLastPOWBlock, n - 1);
      LaterAccepted(Times(p), WorkChain(p, n - 1), WorkChain(p, n));
    }
  }

  lemma {:induction false} NoStakeYet(p: Params, n: nat)
    requires p.Ok()
    ensures LastOfKind(WorkChain(p, n), true) == Genesis(p)
  {
    hide NextBits;
    if n > 0 {
      NoStakeYet(p, n - 1);
    }
  }

  /** A stake block whose target exceeds the limit, which is zero. */
  predicate OverLimit(p: Params, c: StakeIndex)
    requires p.Ok()
  {
    c.StakeIndex? && c.pprev.StakeIndex? && c.fProofOfStake && FromCompact(c.nBits) > p.TargetLimit(c.pprev.nHeight, true) == 0
  }

  /** Two stake blocks after proof-of-work: the bits of both, and of the next one. */
  lemma StakesAfterWork(p: Params, n: nat)
    requires p.Ok() && p.nStartPosvFork2Block == 0 && p.bnProofOfStakeLimitVFork2 == 0 && n > 0
    ensures var b := WorkChain(p, n);
            && OverLimit(p, Quick(p, b, 1)) && OverLimit(p, Quick(p, b, 2))
            && NextBits(p, Quick(p, b, 2), true) == 0
  {
    hide NextBits, FromCompact, Pow256, ToCompact, LatestOf, WorkChain;
    var b := WorkChain(p, n);
    NoStakeYet(p, n);
    var b1, b2 := Quick(p, b, 1), Quick(p, b, 2);
    assert Quick(p, b, 0) == b && b1.pprev == b && b2.pprev == b1;
    assert Early(b, true) && Early(b1, true) && !Early(b2, true);
    ZeroTarget(p, b, true);
    ZeroTarget(p, b1, true);
    ZeroTarget(p, b2, true);
    MinedBits(p, b, true);
    MinedBits(p, b1, true);
  }

  /** On the test networks, the first two stake blocks get a target above the limit, which is zero
      there, and the third one must have the target zero. */
  lemma FirstStakes(p: Params, nLastPOWBlock: nat, n: nat)
    requires p in {TestNet(), RegTest()} && 0 < n <= nLastPOWBlock
    ensures var b := WorkChain(p, n);
            && AcceptedChain(p, nLastPOWBlock, Quick(p, b, 2))
            && OverLimit(p, Quick(p, b, 1)) && OverLimit(p, Quick(p, b, 2))
            && NextBits(p, Quick(p, b, 2), true) == 0
  {
    hide NextBits, FromCompact, Pow256, ToCompact, Quick, AcceptedChain, WorkChain, OverLimit;
    WorkChainAccepted(p, nLastPOWBlock, n);
    QuickAccepted(p, nLastPOWBlock, WorkChain(p, n), 2);
    StakesAfterWork(p, n);
  }
}
