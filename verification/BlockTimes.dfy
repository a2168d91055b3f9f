/** Which times a block may have: GetPastTimeLimit and the checks of AcceptBlock. */
module BlockTimes {
  import opened Headers

  const nMedianTimeSpan: nat := 11

  datatype TimeRules = TimeRules(nStartPosv2Block: int, nStartPosvFork2Block: int) {
    predicate IsProtocolV1(nHeight: int) { nHeight < nStartPosv2Block }
    predicate IsProtocolVFork2(nHeight: int) { nHeight > nStartPosvFork2Block }
  }

  /** The times of the last `n` blocks, or of all if there are fewer, oldest first. */
  function PastTimes(b: StakeIndex, n: nat): (s: seq<nat>)
    ensures s == [] <==> b.NoIndex? || n == 0
  {
    if b.NoIndex? || n == 0 then [] else PastTimes(b.pprev, n - 1) + [b.nTime]
  }

  /** Put in after the last that is not larger. */
  function Placed(s: seq<nat>, t: nat): (r: seq<nat>)
    ensures |r| == |s| + 1
  {
    if s == [] || s[|s| - 1] <= t then s + [t] else Placed(s[..|s| - 1], t) + [s[|s| - 1]]
  }

  function Ordered(s: seq<nat>): (r: seq<nat>)
    ensures |r| == |s|
  {
    if s == [] then [] else Placed(Ordered(s[..|s| - 1]), s[|s| - 1])
  }

  predicate InOrder(s: seq<nat>) {
    forall i, j | 0 <= i < j < |s| :: s[i] <= s[j]
  }

  lemma {:induction false} PlacedOrders(s: seq<nat>, t: nat)
    requires InOrder(s)
    ensures InOrder(Placed(s, t)) && multiset(Placed(s, t)) == multiset(s) + multiset{t}
    ensures forall x :: x in Placed(s, t) <==> x in s || x == t
  {
    if s != [] && s[|s| - 1] > t {
      var k := |s| - 1;
      assert s == s[..k] + [s[k]];
      PlacedOrders(s[..k], t);
      forall i | 0 <= i < |Placed(s[..k], t)| ensures Placed(s[..k], t)[i] <= s[k] {
        assert Placed(s[..k], t)[i] in Placed(s[..k], t);
      }
    }
  }

  /** The same times in order. */
  lemma {:induction false} OrderedIsSorted(s: seq<nat>)
    ensures InOrder(Ordered(s)) && multiset(Ordered(s)) == multiset(s)
  {
    if s != [] {
      var k := |s| - 1;
      OrderedIsSorted(s[..k]);
      PlacedOrders(Ordered(s[..k]), s[k]);
      assert s == s[..k] + [s[k]];
    }
  }

  lemma {:induction false} OrderedAlready(s: seq<nat>)
    requires InOrder(s)
    ensures Ordered(s) == s
  {
    if s != [] {
      var k := |s| - 1;
      OrderedAlready(s[..k]);
      assert s == s[..k] + [s[k]];
      assert k > 0 ==> s[k - 1] <= s[k];
    }
  }

  function MedianTime(b: StakeIndex): nat
    requires b.StakeIndex?
  {
    var s := PastTimes(b, nMedianTimeSpan);
    Ordered(s)[|s| / 2]
  }

  /** What the time of the block after `b` must exceed. */
  function PastTimeLimit(p: TimeRules, b: StakeIndex): nat
    requires b.StakeIndex?
  {
    if p.IsProtocolV1(b.nHeight) then MedianTime(b) else b.nTime
  }

  function FutureDrift(p: TimeRules, nTime: nat, nHeight: nat): nat {
    nTime + if p.IsProtocolV1(nHeight) then 10 * 60 else 15
  }

  function FutureDriftVFork2(nTime: nat): nat {
    nTime + 20 * 60
  }

  /** AcceptBlock takes the time of `b`: it is past the limit, and not too far below the time of
      the block before. */
  predicate TimeAccepted(p: TimeRules, b: StakeIndex)
    requires b.StakeIndex? && b.pprev.StakeIndex?
  {
    && b.nTime > PastTimeLimit(p, b.pprev)
    && FutureDrift(p, b.nTime, b.nHeight) >= b.pprev.nTime
    && (p.IsProtocolVFork2(b.nHeight) ==> FutureDriftVFork2(b.nTime) >= b.pprev.nTime)
  }

  /** All blocks down from `b` were accepted at their times and stand at their heights. */
  ghost predicate TimesAcceptedTo(p: TimeRules, b: StakeIndex) {
    b.StakeIndex? && b.pprev.StakeIndex? ==>
      TimesAcceptedTo(p, b.pprev) && b.nHeight == b.pprev.nHeight + 1 && TimeAccepted(p, b)
  }

  lemma PastTimesStep(b: StakeIndex, n: nat, later: seq<nat>)
    requires b.StakeIndex? && n > 0
    ensures PastTimes(b, n) + later == PastTimes(b.pprev, n - 1) + ([b.nTime] + later)
  {
  }

  method Sort(times: seq<nat>) returns (sorted: seq<nat>)
    ensures sorted == Ordered(times)
  {
    sorted := [];
    for k := 0 to |times|
      invariant sorted == Ordered(times[..k])
    {
      assert times[..k + 1][..k] == times[..k];
      sorted := Placed(sorted, times[k]);
    }
    assert times[..|times|] == times;
  }

  method GetMedianTimePast(b: StakeIndex) returns (t: nat)
    requires b.StakeIndex?
    ensures t == MedianTime(b)
  {
    hide PastTimes;
    var pmedian: seq<nat> := [];
    var pindex := b;
    var i := 0;
    assert PastTimes(b, nMedianTimeSpan) + [] == PastTimes(b, nMedianTimeSpan);
    while i < nMedianTimeSpan && pindex.StakeIndex?
      invariant i <= nMedianTimeSpan
      invariant PastTimes(pindex, nMedianTimeSpan - i) + pmedian == PastTimes(b, nMedianTimeSpan)
    {
      PastTimesStep(pindex, nMedianTimeSpan - i, pmedian);
      pmedian := [pindex.nTime] + pmedian;
      i, pindex := i + 1, pindex.pprev;
    }
    assert [] + pmedian == pmedian;
    var sorted := Sort(pmedian);
    t := sorted[|pmedian| / 2];
  }

  /** The checks of AcceptBlock on the time of a block. */
  method CheckTime(p: TimeRules, b: StakeIndex) returns (ok: bool)
    requires b.StakeIndex? && b.pprev.StakeIndex?
    ensures ok <==> TimeAccepted(p, b)
  {
    var nPastTimeLimit := b.pprev.nTime;
    if p.IsProtocolV1(b.pprev.nHeight) {
      nPastTimeLimit := GetMedianTimePast(b.pprev);
    }
    if b.nTime <= nPastTimeLimit || FutureDrift(p, b.nTime, b.nHeight) < b.pprev.nTime {
      return false;
    }
    if p.IsProtocolVFork2(b.nHeight) && (b.nTime <= nPastTimeLimit || FutureDriftVFork2(b.nTime) < b.pprev.nTime) {
      return false;
    }
    ok := true;
  }
}
