/** The disk format of the address manager, and why reading it back gives the same tables up to
    the numbers of the entries. */
module AddrDisk {
  import opened AddrTables

  /** What is stored of an entry. */
  datatype Saved = Saved(addr: Service, nServices: set<nat>, nTime: int, source: nat, nLastSuccess: int, nAttempts: int)

  function Save(info: Info): Saved {
    Saved(info.addr, info.nServices, info.nTime, info.source, info.nLastSuccess, info.nAttempts)
  }

  function Load(s: Saved): Info {
    Info(s.addr, s.nServices, s.nTime, 0, s.source, s.nLastSuccess, s.nAttempts, 0, false, -1)
  }

  datatype AddrFile = AddrFile(nNew: int, nTried: int, nUBuckets: nat, news: seq<Saved>, trieds: seq<Saved>, buckets: seq<seq<nat>>)

  /** `ids` lists the set, each member once. */
  ghost predicate Lists(ids: seq<nat>, s: set<nat>) {
    Distinct(ids) && forall n :: n in ids <==> n in s
  }

  /** The file holds these tables: the new entries in the order of `newIds`, the tried ones in
      the order of `triedIds`, and for every bucket the positions of its entries in `newIds`. */
  ghost predicate Written(mi: Infos, vv: seq<set<nat>>, nNew: int, nTried: int, file: AddrFile, newIds: seq<nat>, triedIds: seq<nat>) {
    && Lists(newIds, NewIds(mi)) && Lists(triedIds, TriedIds(mi))
    && file.nNew == nNew == |newIds| && file.nTried == nTried == |triedIds|
    && |file.news| == |newIds| && (forall i | 0 <= i < |newIds| :: newIds[i] in mi && file.news[i] == Save(mi[newIds[i]]))
    && |file.trieds| == |triedIds| && (forall i | 0 <= i < |triedIds| :: triedIds[i] in mi && file.trieds[i] == Save(mi[triedIds[i]]))
    && file.nUBuckets == |vv| == |file.buckets|
    && forall b | 0 <= b < |vv| :: StoresBucket(file.buckets[b], vv[b], newIds)
  }

  ghost predicate StoresBucket(bucket: seq<nat>, s: set<nat>, newIds: seq<nat>) {
    Distinct(bucket) && forall i: nat :: i in bucket <==> i < |newIds| && newIds[i] in s
  }

  // ----- sizes

  ghost function Members(s: seq<nat>): set<nat> {
    set n | n in s
  }

  lemma {:induction false} DistinctSize(s: seq<nat>)
    requires Distinct(s)
    ensures |Members(s)| == |s|
  {
    if s != [] {
      var k := |s| - 1;
      DistinctSize(s[..k]);
      assert s == s[..k] + [s[k]];
      assert Members(s) == Members(s[..k]) + {s[k]};
    }
  }

  /** A set of positions is no larger than the set of what is at them. */
  lemma {:induction false} PositionsSize(ps: set<nat>, s: set<nat>, ids: seq<nat>)
    requires Distinct(ids) && forall k | k in ps :: k < |ids| && ids[k] in s
    ensures |ps| <= |s|
    decreases |ps|
  {
    if ps != {} {
      var k :| k in ps;
      PositionsSize(ps - {k}, s - {ids[k]}, ids);
    }
  }

  function Range(n: nat): set<nat> {
    if n == 0 then {} else Range(n - 1) + {n - 1}
  }

  lemma {:induction false} RangeSize(n: nat)
    ensures |Range(n)| == n && forall k: nat :: k in Range(n) <==> k < n
  {
    if n > 0 {
      RangeSize(n - 1);
    }
  }

  // ----- renumbering

  /** An entry as it is after reading, under its new number `k`. */
  function Reloaded(info: Info, k: nat): Info {
    info.(nLastTry := 0, nRandomPos := k)
  }

  ghost function RenumberedInfos(mi: Infos, ids: seq<nat>): Infos
    requires forall k | 0 <= k < |ids| :: ids[k] in mi
  {
    map k: nat | 0 <= k < |ids| :: Reloaded(mi[ids[k]], k)
  }

  /** The addresses under their new numbers. */
  ghost predicate RenumberedAddrs(mi: Infos, ids: seq<nat>, ma': map<nat, nat>) {
    && (forall k | 0 <= k < |ids| :: ids[k] in mi && mi[ids[k]].addr.ip in ma' && ma'[mi[ids[k]].addr.ip] == k)
    && (forall a | a in ma' :: ma'[a] < |ids| && ids[ma'[a]] in mi && mi[ids[ma'[a]]].addr.ip == a)
  }

  /** The new buckets hold the same entries. */
  ghost predicate RenumberedNew(vv: seq<set<nat>>, ids: seq<nat>, vv': seq<set<nat>>) {
    |vv'| == |vv| && forall b | 0 <= b < |vv| :: forall k: nat :: k in vv'[b] <==> k < |ids| && ids[k] in vv[b]
  }

  /** The tried buckets hold the same entries, each once. */
  ghost predicate RenumberedTried(vt: seq<seq<nat>>, ids: seq<nat>, vt': seq<seq<nat>>) {
    |vt'| == |vt| && forall b | 0 <= b < |vt| ::
      Distinct(vt'[b]) && forall k: nat :: k in vt'[b] <==> k < |ids| && ids[k] in vt[b]
  }

  lemma {:induction false} RenumberedCount(vv: seq<set<nat>>, ids: seq<nat>, vv': seq<set<nat>>, k: nat)
    requires RenumberedNew(vv, ids, vv') && k < |ids|
    ensures Count(vv', k) == Count(vv, ids[k])
  {
    if vv != [] {
      RenumberedCount(vv[..|vv| - 1], ids, vv'[..|vv| - 1], k);
    }
  }

  lemma RenumberedNewOk(mi: Infos, vv: seq<set<nat>>, ids: seq<nat>, vv': seq<set<nat>>)
    requires NewOk(mi, vv, -1) && Lists(ids, mi.Keys) && RenumberedNew(vv, ids, vv')
    ensures NewOk(RenumberedInfos(mi, ids), vv', -1)
  {
    var mi' := RenumberedInfos(mi, ids);
    forall n | n in mi' ensures mi'[n].nRefCount == Count(vv', n) {
      RenumberedCount(vv, ids, vv', n);
    }
    forall b | 0 <= b < |vv'| ensures |vv'[b]| <= NEW_BUCKET_SIZE && vv'[b] <= mi'.Keys {
      PositionsSize(vv'[b], vv[b], ids);
    }
  }

  lemma RenumberedTriedOk(bucketOf: Service -> nat, mi: Infos, vt: seq<seq<nat>>, ids: seq<nat>, vt': seq<seq<nat>>)
    requires TriedOk(bucketOf, mi, vt) && Lists(ids, mi.Keys) && RenumberedTried(vt, ids, vt')
    ensures TriedOk(bucketOf, RenumberedInfos(mi, ids), vt')
  {
    forall b | 0 <= b < |vt'| ensures |vt'[b]| <= TRIED_BUCKET_SIZE {
      DistinctSize(vt'[b]);
      DistinctSize(vt[b]);
      PositionsSize(Members(vt'[b]), Members(vt[b]), ids);
    }
  }

  ghost function Straight(n: nat): seq<nat> {
    seq(n, k requires 0 <= k < n => k)
  }

  lemma RenumberedRandom(mi: Infos, ids: seq<nat>)
    requires forall k | 0 <= k < |ids| :: ids[k] in mi
    ensures RandomOk(RenumberedInfos(mi, ids), Straight(|ids|))
  {
  }

  lemma RenumberedInfosOk(mi: Infos, ids: seq<nat>, nIdCount: nat)
    requires InfosOk(mi, nIdCount) && forall k | 0 <= k < |ids| :: ids[k] in mi
    ensures InfosOk(RenumberedInfos(mi, ids), |ids|)
  {
    forall n | n in RenumberedInfos(mi, ids) ensures InfoOk(RenumberedInfos(mi, ids)[n]) {
      assert InfoOk(mi[ids[n]]);
    }
  }

  lemma RenumberedAddrOk(mi: Infos, ids: seq<nat>, ma': map<nat, nat>)
    requires RenumberedAddrs(mi, ids, ma') && forall k | 0 <= k < |ids| :: ids[k] in mi
    ensures AddrOk(RenumberedInfos(mi, ids), ma')
  {
  }

  /** Giving all entries new numbers keeps the tables consistent. */
  lemma RenumberedOk(bucketOf: Service -> nat, mi: Infos, vr: seq<nat>, ma: map<nat, nat>, vv: seq<set<nat>>, vt: seq<seq<nat>>,
                     nIdCount: nat, nNew: int, nTried: int, newIds: seq<nat>, triedIds: seq<nat>,
                     ma': map<nat, nat>, vv': seq<set<nat>>, vt': seq<seq<nat>>)
    requires AllOk(bucketOf, mi, vr, ma, vv, vt, nIdCount, nNew, nTried, -1)
    requires Lists(newIds, NewIds(mi)) && Lists(triedIds, TriedIds(mi)) && nNew == |newIds| && nTried == |triedIds|
    requires var ids := newIds + triedIds;
             RenumberedAddrs(mi, ids, ma') && RenumberedNew(vv, ids, vv') && RenumberedTried(vt, ids, vt')
    ensures var ids := newIds + triedIds;
            Lists(ids, mi.Keys) &&
            AllOk(bucketOf, RenumberedInfos(mi, ids), Straight(|ids|), ma', vv', vt', |ids|, nNew, nTried, -1)
  {
    hide RandomOk, AddrOk, NewOk, TriedOk, InfosOk, RenumberedAddrs, RenumberedNew, RenumberedTried;
    var ids := newIds + triedIds;
    AllListed(mi, newIds, triedIds);
    forall k | 0 <= k < |ids| ensures ids[k] in mi {
      assert ids[k] in ids;
    }
    RenumberedRandom(mi, ids);
    RenumberedInfosOk(mi, ids, nIdCount);
    RenumberedAddrOk(mi, ids, ma');
    RenumberedNewOk(mi, vv, ids, vv');
    RenumberedTriedOk(bucketOf, mi, vt, ids, vt');
    RenumberedCounts(mi, newIds, triedIds);
  }

  lemma AllListed(mi: Infos, newIds: seq<nat>, triedIds: seq<nat>)
    requires Lists(newIds, NewIds(mi)) && Lists(triedIds, TriedIds(mi))
    ensures Lists(newIds + triedIds, mi.Keys)
  {
    Apart(mi, newIds, triedIds);
    forall n ensures n in newIds + triedIds <==> n in mi.Keys {
      assert n in newIds + triedIds <==> n in newIds || n in triedIds;
    }
  }

  lemma Apart(mi: Infos, newIds: seq<nat>, triedIds: seq<nat>)
    requires Lists(newIds, NewIds(mi)) && Lists(triedIds, TriedIds(mi))
    ensures Distinct(newIds + triedIds)
  {
    forall i, j | 0 <= i < |newIds| && 0 <= j < |triedIds| ensures newIds[i] != triedIds[j] {
      assert newIds[i] in NewIds(mi) && triedIds[j] in TriedIds(mi);
    }
  }

  lemma NewOnesFirst(mi: Infos, newIds: seq<nat>, triedIds: seq<nat>)
    requires Lists(newIds, NewIds(mi)) && Lists(triedIds, TriedIds(mi))
    ensures var ids := newIds + triedIds;
            forall k | 0 <= k < |ids| :: ids[k] in mi && (mi[ids[k]].fInTried <==> k >= |newIds|)
  {
    var ids := newIds + triedIds;
    forall k | 0 <= k < |ids| ensures ids[k] in mi && (mi[ids[k]].fInTried <==> k >= |newIds|) {
      if k < |newIds| {
        assert newIds[k] in newIds;
      } else {
        assert triedIds[k - |newIds|] in triedIds;
      }
    }
  }

  lemma RenumberedCounts(mi: Infos, newIds: seq<nat>, triedIds: seq<nat>)
    requires Lists(newIds, NewIds(mi)) && Lists(triedIds, TriedIds(mi)) && Lists(newIds + triedIds, mi.Keys)
    ensures CountsOk(RenumberedInfos(mi, newIds + triedIds), |newIds|, |triedIds|)
  {
    hide Lists, NewIds, TriedIds, CountsOk;
    NewOnesFirst(mi, newIds, triedIds);
    CountsOfRange(RenumberedInfos(mi, newIds + triedIds), |newIds|, |newIds + triedIds|);
  }

  lemma CountsOfRange(mi: Infos, lo: nat, n: nat)
    requires lo <= n && forall k: nat :: k in mi <==> k < n
    requires forall k | k in mi :: mi[k].fInTried <==> k >= lo
    ensures CountsOk(mi, lo, n - lo)
  {
    RangeSize(lo);
    RangeSize(n);
    assert NewIds(mi) == Range(lo) && TriedIds(mi) == Range(n) - Range(lo);
    assert Range(lo) <= Range(n);
  }

  // ----- what reading builds, step by step

  /** An entry as read, before its buckets are counted. */
  function Uncounted(info: Info, k: nat): Info {
    Reloaded(info, k).(nRefCount := 0)
  }

  ghost predicate ReadInfos(mi: Infos, ids: seq<nat>, n: nat, mi': Infos) {
    && n <= |ids| && (forall k: nat :: k in mi' <==> k < n)
    && forall k | k in mi' :: ids[k] in mi && mi'[k] == Uncounted(mi[ids[k]], k)
  }

  ghost predicate ReadAddrs(mi: Infos, ids: seq<nat>, n: nat, ma': map<nat, nat>) {
    && n <= |ids|
    && (forall k | 0 <= k < n :: ids[k] in mi && mi[ids[k]].addr.ip in ma' && ma'[mi[ids[k]].addr.ip] == k)
    && (forall a | a in ma' :: ma'[a] < n && ids[ma'[a]] in mi && mi[ids[ma'[a]]].addr.ip == a)
  }

  lemma ReadOneMore(mi: Infos, ma: map<nat, nat>, ids: seq<nat>, n: nat, mi': Infos, ma': map<nat, nat>)
    requires AddrOk(mi, ma) && Lists(ids, mi.Keys) && n < |ids| && ReadInfos(mi, ids, n, mi') && ReadAddrs(mi, ids, n, ma')
    ensures ids[n] in mi
    ensures ReadInfos(mi, ids, n + 1, mi'[n := Uncounted(mi[ids[n]], n)])
    ensures ReadAddrs(mi, ids, n + 1, ma'[mi[ids[n]].addr.ip := n])
  {
    hide ReadInfos, ReadAddrs;
    assert ids[n] in ids;
    forall k | 0 <= k < n ensures ids[k] in mi && mi[ids[k]].addr.ip != mi[ids[n]].addr.ip {
      assert ids[k] in ids;
      assert ma[mi[ids[k]].addr.ip] == ids[k] && ma[mi[ids[n]].addr.ip] == ids[n];
    }
    ReadInfosNext(mi, ids, n, mi');
    ReadAddrsNext(mi, ids, n, ma');
  }

  lemma ReadInfosNext(mi: Infos, ids: seq<nat>, n: nat, mi': Infos)
    requires n < |ids| && ids[n] in mi && ReadInfos(mi, ids, n, mi')
    ensures ReadInfos(mi, ids, n + 1, mi'[n := Uncounted(mi[ids[n]], n)])
  {
  }

  lemma ReadAddrsNext(mi: Infos, ids: seq<nat>, n: nat, ma': map<nat, nat>)
    requires n < |ids| && ids[n] in mi && ReadAddrs(mi, ids, n, ma')
    requires forall k | 0 <= k < n :: ids[k] in mi && mi[ids[k]].addr.ip != mi[ids[n]].addr.ip
    ensures ReadAddrs(mi, ids, n + 1, ma'[mi[ids[n]].addr.ip := n])
  {
  }

  /** The tried buckets after reading the tried entries numbered from `lo` to below `n`. */
  ghost predicate ReadTried(bucketOf: Service -> nat, mi: Infos, ids: seq<nat>, lo: nat, n: nat, vt': seq<seq<nat>>) {
    && lo <= n <= |ids| && |vt'| == TRIED_BUCKET_COUNT
    && (forall k | lo <= k < n :: ids[k] in mi)
    && forall b | 0 <= b < |vt'| ::
         Distinct(vt'[b]) && forall k: nat :: k in vt'[b] <==> lo <= k < n && bucketOf(mi[ids[k]].addr) == b
  }

  /** There is room for the next one: the bucket it was in held it too. */
  lemma RoomForNext(bucketOf: Service -> nat, mi: Infos, vt: seq<seq<nat>>, ids: seq<nat>, lo: nat, n: nat, vt': seq<seq<nat>>)
    requires TriedOk(bucketOf, mi, vt) && Lists(ids, mi.Keys) && n < |ids| && ReadTried(bucketOf, mi, ids, lo, n, vt')
    requires forall k | lo <= k < |ids| :: ids[k] in mi && mi[ids[k]].fInTried
    ensures var b := bucketOf(mi[ids[n]].addr); b < TRIED_BUCKET_COUNT == |vt'| && |vt'[b]| < TRIED_BUCKET_SIZE
  {
    var b := bucketOf(mi[ids[n]].addr);
    assert ids[n] in vt[b];
    DistinctSize(vt'[b]);
    DistinctSize(vt[b]);
    forall k | k in Members(vt'[b]) + {n} ensures k < |ids| && ids[k] in Members(vt[b]) {
      assert k in vt'[b] || k == n;
    }
    PositionsSize(Members(vt'[b]) + {n}, Members(vt[b]), ids);
  }

  lemma ReadTriedOneMore(bucketOf: Service -> nat, mi: Infos, ids: seq<nat>, lo: nat, n: nat, vt': seq<seq<nat>>)
    requires ReadTried(bucketOf, mi, ids, lo, n, vt') && n < |ids| && ids[n] in mi && bucketOf(mi[ids[n]].addr) < |vt'|
    ensures var b := bucketOf(mi[ids[n]].addr); ReadTried(bucketOf, mi, ids, lo, n + 1, vt'[b := vt'[b] + [n]])
  {
    var b := bucketOf(mi[ids[n]].addr);
    var wt := vt'[b := vt'[b] + [n]];
    assert n !in vt'[b];
    forall c, k: nat | 0 <= c < |wt| ensures k in wt[c] <==> lo <= k < n + 1 && bucketOf(mi[ids[k]].addr) == c {
      assert k in wt[c] <==> k in vt'[c] || (c == b && k == n);
    }
  }

  lemma AllTriedRead(bucketOf: Service -> nat, mi: Infos, vt: seq<seq<nat>>, ids: seq<nat>, lo: nat, vt': seq<seq<nat>>)
    requires TriedOk(bucketOf, mi, vt) && Lists(ids, mi.Keys) && ReadTried(bucketOf, mi, ids, lo, |ids|, vt')
    requires forall k | 0 <= k < |ids| :: ids[k] in mi && (mi[ids[k]].fInTried <==> k >= lo)
    ensures RenumberedTried(vt, ids, vt')
  {
    forall b, k: nat | 0 <= b < |vt| && k < |ids| ensures k in vt'[b] <==> ids[k] in vt[b] {
    }
  }

  /** The new buckets that the file describes. */
  ghost function FileBuckets(file: AddrFile): (vv: seq<set<nat>>)
    ensures |vv| == |file.buckets|
  {
    seq(|file.buckets|, b requires 0 <= b < |file.buckets| => Members(file.buckets[b]))
  }

  lemma FileBucketsRenumber(mi: Infos, vv: seq<set<nat>>, nNew: int, nTried: int, file: AddrFile, newIds: seq<nat>, triedIds: seq<nat>)
    requires Written(mi, vv, nNew, nTried, file, newIds, triedIds) && NewOk(mi, vv, -1)
    requires forall n | n in mi && mi[n].fInTried :: mi[n].nRefCount == 0
    ensures RenumberedNew(vv, newIds + triedIds, FileBuckets(file))
  {
    var ids := newIds + triedIds;
    forall b, k: nat | 0 <= b < |vv| && |newIds| <= k < |ids| ensures ids[k] !in vv[b] {
      assert triedIds[k - |newIds|] in triedIds;
      CountPositive(vv, ids[k]);
    }
    forall b, k: nat | 0 <= b < |vv| ensures k in FileBuckets(file)[b] <==> k < |ids| && ids[k] in vv[b] {
      assert StoresBucket(file.buckets[b], vv[b], newIds);
    }
  }

  /** An id that one bucket has yet to get is in fewer buckets now than it will be. */
  lemma {:induction false} CountLess(now: seq<set<nat>>, then': seq<set<nat>>, b: nat, n: nat)
    requires |now| == |then'| && b < |now| && n in then'[b] && n !in now[b]
    requires forall c | 0 <= c < |now| :: now[c] <= then'[c]
    ensures Count(now, n) < Count(then', n)
  {
    var k := |now| - 1;
    if b < k {
      CountLess(now[..k], then'[..k], b, n);
    } else {
      CountAtMost(now[..k], then'[..k], n);
    }
  }

  lemma {:induction false} CountAtMost(now: seq<set<nat>>, then': seq<set<nat>>, n: nat)
    requires |now| == |then'| && forall c | 0 <= c < |now| :: now[c] <= then'[c]
    ensures Count(now, n) <= Count(then', n)
  {
    if now != [] {
      CountAtMost(now[..|now| - 1], then'[..|now| - 1], n);
    }
  }

  lemma {:induction false} CountNone(vv: seq<set<nat>>, n: nat)
    requires forall c | 0 <= c < |vv| :: n !in vv[c]
    ensures Count(vv, n) == 0
  {
    if vv != [] {
      CountNone(vv[..|vv| - 1], n);
    }
  }

  /** All entries are read, and each counts the buckets that hold it so far. */
  ghost predicate Counted(mi: Infos, ids: seq<nat>, vv': seq<set<nat>>, mi': Infos) {
    && (forall k: nat :: k in mi' <==> k < |ids|)
    && forall k | k in mi' :: ids[k] in mi && mi'[k] == Reloaded(mi[ids[k]], k).(nRefCount := Count(vv', k))
  }

  lemma NoneCounted(mi: Infos, ids: seq<nat>, mi': Infos)
    requires ReadInfos(mi, ids, |ids|, mi')
    ensures Counted(mi, ids, EmptyNew(), mi')
  {
    forall k | k in mi' ensures Count(EmptyNew(), k) == 0 {
      CountNone(EmptyNew(), k);
    }
  }

  /** What the buckets hold so far is what they are to hold, up to place `n` of bucket `b`. */
  ghost predicate ReadUpTo(file: AddrFile, b: nat, n: nat, now: seq<set<nat>>)
    requires b < |file.buckets| && n <= |file.buckets[b]|
  {
    && |now| == |file.buckets| && now[b] == Members(file.buckets[b][..n])
    && (forall c | 0 <= c < b :: now[c] == Members(file.buckets[c]))
    && (forall c | b < c < |now| :: now[c] == {})
  }

  /** No entry read from a bucket finds its four references taken. */
  lemma CountedOneMore(mi: Infos, vv: seq<set<nat>>, ids: seq<nat>, nIdCount: nat, file: AddrFile, b: nat, n: nat, now: seq<set<nat>>, mi': Infos)
    requires b < |file.buckets| && n < |file.buckets[b]| && Distinct(file.buckets[b]) && ReadUpTo(file, b, n, now)
    requires NewOk(mi, vv, -1) && InfosOk(mi, nIdCount) && RenumberedNew(vv, ids, FileBuckets(file)) && Counted(mi, ids, now, mi')
    ensures var k := file.buckets[b][n];
            && k in mi' && mi'[k].nRefCount < NEW_BUCKETS_PER_ADDRESS && k !in now[b]
            && ReadUpTo(file, b, n + 1, now[b := now[b] + {k}])
            && Counted(mi, ids, now[b := now[b] + {k}], mi'[k := mi'[k].(nRefCount := mi'[k].nRefCount + 1)])
  {
    hide Count;
    var k := file.buckets[b][n];
    assert k in FileBuckets(file)[b] && k !in now[b];
    forall c | 0 <= c < |now| ensures now[c] <= FileBuckets(file)[c] {
    }
    assert InfoOk(mi[ids[k]]);
    CountLess(now, FileBuckets(file), b, k);
    RenumberedCount(vv, ids, FileBuckets(file), k);
    assert file.buckets[b][..n + 1] == file.buckets[b][..n] + [k];
    assert now[b] + {k} == Members(file.buckets[b][..n + 1]);
    forall m: nat ensures Count(now[b := now[b] + {k}], m) == Count(now, m) + if m == k then 1 else 0 {
      CountUpdate(now, b, now[b] + {k}, m);
    }
  }

  lemma AllCounted(mi: Infos, vv: seq<set<nat>>, ids: seq<nat>, vv': seq<set<nat>>, mi': Infos)
    requires NewOk(mi, vv, -1) && RenumberedNew(vv, ids, vv') && Counted(mi, ids, vv', mi')
    requires forall k | 0 <= k < |ids| :: ids[k] in mi
    ensures mi' == RenumberedInfos(mi, ids)
  {
    forall k | k in mi' ensures mi'[k] == Reloaded(mi[ids[k]], k) {
      RenumberedCount(vv, ids, vv', k);
    }
  }

  /** All tables of an address manager. */
  datatype Tables = Tables(mi: Infos, vr: seq<nat>, ma: map<nat, nat>, vv: seq<set<nat>>, vt: seq<seq<nat>>, nIdCount: nat, nNew: int, nTried: int)

  ghost predicate TablesOk(bucketOf: Service -> nat, t: Tables) {
    AllOk(bucketOf, t.mi, t.vr, t.ma, t.vv, t.vt, t.nIdCount, t.nNew, t.nTried, -1)
  }

  /** The file holds the tables `t`, with their entries in the order `ids`, the first `lo` of
      which are the new ones. */
  ghost predicate FileOf(t: Tables, file: AddrFile, ids: seq<nat>, lo: nat) {
    && Lists(ids, t.mi.Keys) && lo <= |ids|
    && (forall k | 0 <= k < |ids| :: ids[k] in t.mi && (t.mi[ids[k]].fInTried <==> k >= lo))
    && |file.news| == file.nNew == t.nNew == lo && |file.trieds| == file.nTried == t.nTried == |ids| - lo
    && (forall k | 0 <= k < lo :: file.news[k] == Save(t.mi[ids[k]]))
    && (forall k | lo <= k < |ids| :: file.trieds[k - lo] == Save(t.mi[ids[k]]))
  }

  lemma WrittenFile(bucketOf: Service -> nat, t: Tables, file: AddrFile, newIds: seq<nat>, triedIds: seq<nat>)
    requires TablesOk(bucketOf, t) && Written(t.mi, t.vv, t.nNew, t.nTried, file, newIds, triedIds)
    ensures FileOf(t, file, newIds + triedIds, |newIds|)
  {
    hide RandomOk, AddrOk, NewOk, TriedOk, CountsOk, StoresBucket, Lists;
    var ids := newIds + triedIds;
    AllListed(t.mi, newIds, triedIds);
    NewOnesFirst(t.mi, newIds, triedIds);
  }

  lemma WrittenBuckets(bucketOf: Service -> nat, t: Tables, file: AddrFile, newIds: seq<nat>, triedIds: seq<nat>)
    requires TablesOk(bucketOf, t) && Written(t.mi, t.vv, t.nNew, t.nTried, file, newIds, triedIds)
    ensures |file.buckets| == file.nUBuckets == NEW_BUCKET_COUNT && forall b | 0 <= b < |file.buckets| :: Distinct(file.buckets[b])
    ensures RenumberedNew(t.vv, newIds + triedIds, FileBuckets(file))
  {
    hide RandomOk, AddrOk, TriedOk, CountsOk, RenumberedNew;
    forall n | n in t.mi && t.mi[n].fInTried ensures t.mi[n].nRefCount == 0 {
      assert InfoOk(t.mi[n]);
    }
    FileBucketsRenumber(t.mi, t.vv, t.nNew, t.nTried, file, newIds, triedIds);
    forall b | 0 <= b < |file.buckets| ensures Distinct(file.buckets[b]) {
      assert StoresBucket(file.buckets[b], t.vv[b], newIds);
    }
  }

  lemma SavedLoads(info: Info, k: nat)
    ensures Load(Save(info)).(nRandomPos := k, fInTried := info.fInTried) == Uncounted(info, k)
  {
  }
}
