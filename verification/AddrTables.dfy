/** The tables of the address manager as values, what its consistency check demands of them,
    and how single changes keep that. */
module AddrTables {

  const TRIED_BUCKET_COUNT: nat := 64
  const TRIED_BUCKET_SIZE: nat := 64
  const NEW_BUCKET_COUNT: nat := 256
  const NEW_BUCKET_SIZE: nat := 64
  const NEW_BUCKETS_PER_ADDRESS: nat := 4
  const TRIED_ENTRIES_INSPECT_ON_EVICT: nat := 4

  datatype Service = Service(ip: nat, port: nat)

  /** CAddrInfo; an entry is indexed by its address without the port.  `nServices` is the set of
      its flags. */
  datatype Info = Info(addr: Service, nServices: set<nat>, nTime: int, nLastTry: int, source: nat, nLastSuccess: int,
                       nAttempts: int, nRefCount: int, fInTried: bool, nRandomPos: int)

  type Infos = map<nat, Info>

  /** `vRandom` lists every id once, and every entry knows its position there. */
  ghost predicate RandomOk(mi: Infos, vr: seq<nat>) {
    && (forall n | n in mi :: 0 <= mi[n].nRandomPos < |vr| && vr[mi[n].nRandomPos] == n)
    && (forall p | 0 <= p < |vr| :: vr[p] in mi && mi[vr[p]].nRandomPos == p)
  }

  /** `mapAddr` and the addresses of the entries are inverse. */
  ghost predicate AddrOk(mi: Infos, ma: map<nat, nat>) {
    && (forall n | n in mi :: mi[n].addr.ip in ma && ma[mi[n].addr.ip] == n)
    && (forall a | a in ma :: ma[a] in mi && mi[ma[a]].addr.ip == a)
  }

  /** In how many buckets an id is. */
  ghost function Count(vv: seq<set<nat>>, n: nat): nat {
    if vv == [] then 0 else Count(vv[..|vv| - 1], n) + if n in vv[|vv| - 1] then 1 else 0
  }

  /** The "new" buckets hold known entries, not too many each, and every entry counts the
      buckets it is in.  `pending` is an entry that is counted for a bucket it is yet to be
      put in; -1 when there is none. */
  ghost predicate NewOk(mi: Infos, vv: seq<set<nat>>, pending: int) {
    && |vv| == NEW_BUCKET_COUNT
    && (forall b | 0 <= b < |vv| :: |vv[b]| <= NEW_BUCKET_SIZE && vv[b] <= mi.Keys)
    && (forall n | n in mi :: mi[n].nRefCount == Count(vv, n) + if n == pending then 1 else 0)
  }

  ghost predicate Distinct(s: seq<nat>) {
    forall i, j | 0 <= i < j < |s| :: s[i] != s[j]
  }

  /** The "tried" buckets hold exactly the tried entries, each once and in its own bucket. */
  ghost predicate TriedOk(bucketOf: Service -> nat, mi: Infos, vt: seq<seq<nat>>) {
    && |vt| == TRIED_BUCKET_COUNT
    && (forall b | 0 <= b < |vt| :: |vt[b]| <= TRIED_BUCKET_SIZE && Distinct(vt[b]))
    && (forall b, n | 0 <= b < |vt| && n in vt[b] :: n in mi && mi[n].fInTried && bucketOf(mi[n].addr) == b)
    && (forall n | n in mi && mi[n].fInTried :: bucketOf(mi[n].addr) < |vt| && n in vt[bucketOf(mi[n].addr)])
  }

  predicate InfoOk(info: Info) {
    && (if info.fInTried then info.nRefCount == 0 && info.nLastSuccess != 0
        else 1 <= info.nRefCount <= NEW_BUCKETS_PER_ADDRESS)
    && info.nLastTry >= 0 && info.nLastSuccess >= 0
  }

  ghost predicate InfosOk(mi: Infos, nIdCount: nat) {
    forall n | n in mi :: n < nIdCount && InfoOk(mi[n])
  }

  /** All buckets empty. */
  function EmptyTried(): (vt: seq<seq<nat>>)
    ensures |vt| == TRIED_BUCKET_COUNT && forall b | 0 <= b < |vt| :: vt[b] == []
  {
    seq(TRIED_BUCKET_COUNT, _ => [])
  }

  function EmptyNew(): (vv: seq<set<nat>>)
    ensures |vv| == NEW_BUCKET_COUNT && forall b | 0 <= b < |vv| :: vv[b] == {}
  {
    seq(NEW_BUCKET_COUNT, _ => {})
  }

  function NewIds(mi: Infos): set<nat> {
    set n | n in mi && !mi[n].fInTried
  }

  function TriedIds(mi: Infos): set<nat> {
    set n | n in mi && mi[n].fInTried
  }

  ghost predicate CountsOk(mi: Infos, nNew: int, nTried: int) {
    nNew == |NewIds(mi)| && nTried == |TriedIds(mi)|
  }

  // ----- counting buckets

  lemma {:induction false} CountUpdate(vv: seq<set<nat>>, b: nat, s: set<nat>, n: nat)
    requires b < |vv|
    ensures Count(vv[b := s], n) == Count(vv, n) - (if n in vv[b] then 1 else 0) + (if n in s then 1 else 0)
  {
    var k := |vv| - 1;
    if b < k {
      CountUpdate(vv[..k], b, s, n);
      assert vv[b := s][..k] == vv[..k][b := s];
    } else {
      assert vv[b := s][..k] == vv[..k];
    }
  }

  lemma {:induction false} CountPositive(vv: seq<set<nat>>, n: nat)
    ensures Count(vv, n) > 0 <==> exists b :: 0 <= b < |vv| && n in vv[b]
  {
    if vv != [] {
      var k := |vv| - 1;
      CountPositive(vv[..k], n);
      if b :| 0 <= b < k && n in vv[..k][b] {
        assert n in vv[b];
      }
      if b :| 0 <= b < |vv| && n in vv[b] {
        assert b < k ==> n in vv[..k][b];
      }
    }
  }

  /** Taking one id out of every bucket changes no other count. */
  lemma {:induction false} CountErased(vv: seq<set<nat>>, vv': seq<set<nat>>, id: nat, n: nat)
    requires |vv'| == |vv| && forall b | 0 <= b < |vv| :: vv'[b] == vv[b] - {id}
    ensures Count(vv', n) == if n == id then 0 else Count(vv, n)
  {
    if vv != [] {
      CountErased(vv[..|vv| - 1], vv'[..|vv| - 1], id, n);
    }
  }

  // ----- changes that leave a table alone

  /** Entries with the same addresses and positions. */
  ghost predicate SamePlaces(mi: Infos, mi': Infos) {
    mi'.Keys == mi.Keys && forall n | n in mi :: mi'[n].addr == mi[n].addr && mi'[n].nRandomPos == mi[n].nRandomPos
  }

  lemma PlacesKept(mi: Infos, mi': Infos, vr: seq<nat>, ma: map<nat, nat>)
    requires SamePlaces(mi, mi') && RandomOk(mi, vr) && AddrOk(mi, ma)
    ensures RandomOk(mi', vr) && AddrOk(mi', ma)
  {
  }

  /** Putting an id in a bucket, or taking it out, while its count follows. */
  lemma BucketChanged(mi: Infos, mi': Infos, vv: seq<set<nat>>, b: nat, s: set<nat>, id: nat, pending: int, pending': int)
    requires NewOk(mi, vv, pending) && b < |vv| && id in mi && |s| <= NEW_BUCKET_SIZE
    requires s == vv[b] + {id} || s == vv[b] - {id}
    requires mi'.Keys == mi.Keys && forall n | n in mi && n != id :: mi'[n].nRefCount == mi[n].nRefCount
    requires forall n | n in mi && n != id :: (n == pending <==> n == pending')
    requires mi'[id].nRefCount == mi[id].nRefCount - (if id == pending then 1 else 0) + (if id == pending' then 1 else 0)
                                  - (if id in vv[b] then 1 else 0) + (if id in s then 1 else 0)
    ensures NewOk(mi', vv[b := s], pending')
  {
    forall n | n in mi' ensures mi'[n].nRefCount == Count(vv[b := s], n) + if n == pending' then 1 else 0 {
      CountUpdate(vv, b, s, n);
    }
  }

  /** Entries that differ at most in their position in vRandom. */
  ghost predicate Moved(mi: Infos, mi': Infos) {
    mi'.Keys <= mi.Keys && forall n | n in mi' :: mi'[n] == mi[n].(nRandomPos := mi'[n].nRandomPos)
  }

  /** The last bucket an entry was in lets it go, and the entry goes too. */
  lemma EntryGone(mi: Infos, mi': Infos, vv: seq<set<nat>>, b: nat, id: nat, pending: int)
    requires NewOk(mi, vv, pending) && b < |vv| && id in vv[b] && id != pending && Count(vv, id) == 1
    requires mi'.Keys == mi.Keys - {id} && Moved(mi, mi')
    ensures NewOk(mi', vv[b := vv[b] - {id}], pending)
  {
    var vv' := vv[b := vv[b] - {id}];
    forall n | n in mi ensures Count(vv', n) == Count(vv, n) - if n == id then 1 else 0 {
      CountUpdate(vv, b, vv[b] - {id}, n);
    }
    forall c | 0 <= c < |vv'| ensures |vv'[c]| <= NEW_BUCKET_SIZE && vv'[c] <= mi'.Keys {
      CountPositive(vv', id);
    }
  }

  /** What is left of the other tables when an entry that was not tried goes. */
  lemma OthersKept(bucketOf: Service -> nat, mi: Infos, mi': Infos, vt: seq<seq<nat>>, nIdCount: nat, nNew: int, nTried: int, id: nat)
    requires TriedOk(bucketOf, mi, vt) && InfosOk(mi, nIdCount) && CountsOk(mi, nNew, nTried)
    requires id in mi && !mi[id].fInTried && mi'.Keys == mi.Keys - {id} && Moved(mi, mi')
    ensures TriedOk(bucketOf, mi', vt) && InfosOk(mi', nIdCount) && CountsOk(mi', nNew - 1, nTried)
  {
    assert NewIds(mi') == NewIds(mi) - {id};
    assert TriedIds(mi') == TriedIds(mi);
  }

  /** Entries of the same kind: same address, same flag. */
  ghost predicate SameKinds(mi: Infos, mi': Infos) {
    mi'.Keys == mi.Keys && forall n | n in mi :: mi'[n].addr == mi[n].addr && mi'[n].fInTried == mi[n].fInTried
  }

  lemma KindsKept(bucketOf: Service -> nat, mi: Infos, mi': Infos, vt: seq<seq<nat>>, nNew: int, nTried: int)
    requires SameKinds(mi, mi') && TriedOk(bucketOf, mi, vt) && CountsOk(mi, nNew, nTried)
    ensures TriedOk(bucketOf, mi', vt) && CountsOk(mi', nNew, nTried)
  {
    assert NewIds(mi') == NewIds(mi) && TriedIds(mi') == TriedIds(mi);
  }

  /** An entry in a "new" bucket is not tried, and counts its buckets. */
  lemma InBucket(mi: Infos, vv: seq<set<nat>>, pending: int, nIdCount: nat, b: nat, id: nat)
    requires NewOk(mi, vv, pending) && InfosOk(mi, nIdCount) && b < |vv| && id in vv[b] && id != pending
    ensures id in mi && InfoOk(mi[id]) && !mi[id].fInTried && mi[id].nRefCount == Count(vv, id) >= 1
  {
    CountPositive(vv, id);
  }

  lemma InfoChanged(mi: Infos, id: nat, info: Info, nIdCount: nat)
    requires InfosOk(mi, nIdCount) && id in mi && InfoOk(info)
    ensures InfosOk(mi[id := info], nIdCount)
  {
  }

  /** CAddrInfo::IsTerrible: bad enough to be dropped from a full bucket. */
  predicate IsTerrible(info: Info, nNow: int) {
    if info.nLastTry != 0 && info.nLastTry >= nNow - 60 then false
    else
      || info.nTime > nNow + 10 * 60
      || info.nTime == 0 || nNow - info.nTime > 30 * 86400
      || (info.nLastSuccess == 0 && info.nAttempts >= 3)
      || (nNow - info.nLastSuccess > 7 * 86400 && info.nAttempts >= 10)
  }

  /** What decides: an entry tried within the last minute stays; one that was never tried goes by its
      time alone; one seen in the last days goes after three failures without a success, or after
      ten with none in a week. */
  lemma WhenTerrible(info: Info, nNow: int)
    ensures info.nLastTry != 0 && nNow - info.nLastTry <= 60 ==> !IsTerrible(info, nNow)
    ensures info.nLastTry == 0 && info.nAttempts == 0 ==>
              (IsTerrible(info, nNow) <==> info.nTime == 0 || !(nNow - 2_592_000 <= info.nTime <= nNow + 600))
    ensures 0 < info.nTime && nNow - 2_592_000 <= info.nTime <= nNow + 600 && (info.nLastTry == 0 || nNow - info.nLastTry > 60) ==>
              (IsTerrible(info, nNow) <==>
               (info.nLastSuccess == 0 && info.nAttempts >= 3) || (info.nLastSuccess < nNow - 604_800 && info.nAttempts >= 10))
  {
  }

  ghost predicate IsLeast(s: set<nat>, n: nat) {
    n in s && forall m | m in s :: n <= m
  }

  lemma {:induction false} LeastExists(s: set<nat>)
    requires s != {}
    ensures exists n :: IsLeast(s, n)
    decreases s
  {
    var k :| k in s;
    if s == {k} {
      assert IsLeast(s, k);
    } else {
      LeastExists(s - {k});
      var n :| IsLeast(s - {k}, n);
      var least := if n <= k then n else k;
      forall m | m in s ensures least <= m {
        assert m == k || m in s - {k};
      }
      assert IsLeast(s, least);
    }
  }

  ghost predicate AllOk(bucketOf: Service -> nat, mi: Infos, vr: seq<nat>, ma: map<nat, nat>, vv: seq<set<nat>>, vt: seq<seq<nat>>,
                        nIdCount: nat, nNew: int, nTried: int, pending: int) {
    && RandomOk(mi, vr) && AddrOk(mi, ma) && NewOk(mi, vv, pending) && TriedOk(bucketOf, mi, vt)
    && InfosOk(mi, nIdCount) && CountsOk(mi, nNew, nTried)
  }

  /** Changing what an entry knows, and perhaps counting it for one more bucket. */
  lemma EntryTouched(bucketOf: Service -> nat, mi: Infos, vr: seq<nat>, ma: map<nat, nat>, vv: seq<set<nat>>, vt: seq<seq<nat>>,
                     nIdCount: nat, nNew: int, nTried: int, id: nat, info: Info, pending: int)
    requires AllOk(bucketOf, mi, vr, ma, vv, vt, nIdCount, nNew, nTried, -1)
    requires id in mi && info.addr == mi[id].addr && info.fInTried == mi[id].fInTried && info.nRandomPos == mi[id].nRandomPos
    requires InfoOk(info) && (pending == -1 || pending == id)
    requires info.nRefCount == mi[id].nRefCount + if pending == id then 1 else 0
    ensures AllOk(bucketOf, mi[id := info], vr, ma, vv, vt, nIdCount, nNew, nTried, pending)
  {
    hide RandomOk, AddrOk, TriedOk, CountsOk;
    var mi' := mi[id := info];
    PlacesKept(mi, mi', vr, ma);
    KindsKept(bucketOf, mi, mi', vt, nNew, nTried);
    InfoChanged(mi, id, info, nIdCount);
    CountsTouched(mi, vv, id, info, pending);
  }

  lemma CountsTouched(mi: Infos, vv: seq<set<nat>>, id: nat, info: Info, pending: int)
    requires NewOk(mi, vv, -1) && id in mi && (pending == -1 || pending == id)
    requires info.nRefCount == mi[id].nRefCount + if pending == id then 1 else 0
    ensures NewOk(mi[id := info], vv, pending)
  {
  }

  /** A new entry, counted for the bucket it will be in. */
  lemma EntryAdded(bucketOf: Service -> nat, mi: Infos, vr: seq<nat>, ma: map<nat, nat>, vv: seq<set<nat>>, vt: seq<seq<nat>>,
                   nIdCount: nat, nNew: int, nTried: int, info: Info)
    requires AllOk(bucketOf, mi, vr, ma, vv, vt, nIdCount, nNew, nTried, -1)
    requires info.addr.ip !in ma && info.nRandomPos == |vr| && !info.fInTried && info.nRefCount == 1 && InfoOk(info)
    ensures AllOk(bucketOf, mi[nIdCount := info], vr + [nIdCount], ma[info.addr.ip := nIdCount], vv, vt,
                  nIdCount + 1, nNew + 1, nTried, nIdCount)
  {
    var mi' := mi[nIdCount := info];
    AddedPlaces(mi, vr, ma, nIdCount, info);
    AddedElsewhere(bucketOf, mi, vt, nIdCount, nNew, nTried, info);
    CountPositive(vv, nIdCount);
    assert Count(vv, nIdCount) == 0;
    assert NewOk(mi', vv, nIdCount);
  }

  lemma AddedPlaces(mi: Infos, vr: seq<nat>, ma: map<nat, nat>, id: nat, info: Info)
    requires RandomOk(mi, vr) && AddrOk(mi, ma) && id !in mi && info.addr.ip !in ma && info.nRandomPos == |vr|
    ensures RandomOk(mi[id := info], vr + [id]) && AddrOk(mi[id := info], ma[info.addr.ip := id])
  {
  }

  lemma AddedElsewhere(bucketOf: Service -> nat, mi: Infos, vt: seq<seq<nat>>, nIdCount: nat, nNew: int, nTried: int, info: Info)
    requires TriedOk(bucketOf, mi, vt) && InfosOk(mi, nIdCount) && CountsOk(mi, nNew, nTried)
    requires !info.fInTried && InfoOk(info)
    ensures var mi' := mi[nIdCount := info];
            TriedOk(bucketOf, mi', vt) && InfosOk(mi', nIdCount + 1) && CountsOk(mi', nNew + 1, nTried)
  {
    var mi' := mi[nIdCount := info];
    assert NewIds(mi') == NewIds(mi) + {nIdCount};
    assert TriedIds(mi') == TriedIds(mi);
  }

  lemma KnownInfo(mi: Infos, nIdCount: nat, id: nat)
    requires InfosOk(mi, nIdCount) && id in mi
    ensures InfoOk(mi[id]) && id < nIdCount
  {
  }

  // ----- promotion and eviction

  function Swapped(s: seq<nat>, i: nat, j: nat): seq<nat>
    requires i < |s| && j < |s|
  {
    s[j := s[i]][i := s[j]]
  }

  lemma SwapKeeps(s: seq<nat>, i: nat, j: nat)
    requires i < |s| && j < |s| && Distinct(s)
    ensures Distinct(Swapped(s, i, j)) && multiset(Swapped(s, i, j)) == multiset(s)
  {
  }

  lemma SameMembers(s: seq<nat>, t: seq<nat>)
    requires multiset(s) == multiset(t)
    ensures |s| == |t| && forall n :: n in s <==> n in t
  {
    assert |multiset(s)| == |s| && |multiset(t)| == |t|;
    forall n ensures n in s <==> n in t {
      assert n in multiset(s) <==> n in multiset(t);
    }
  }

  // ----- drawing entries of a tried bucket

  /** The bucket after each drawn entry was swapped to the front, one place after the other. */
  function Shuffled(s: seq<nat>, places: seq<nat>): (r: seq<nat>)
    requires |places| <= |s| && forall i | 0 <= i < |places| :: places[i] < |s|
    ensures |r| == |s|
  {
    if places == [] then s else
      var k := |places| - 1;
      Swapped(Shuffled(s, places[..k]), k, places[k])
  }

  /** Entry number `i` is drawn from the places from `i` on. */
  ghost predicate Drawing(s: seq<nat>, places: seq<nat>) {
    && |places| == (if |s| < TRIED_ENTRIES_INSPECT_ON_EVICT then |s| else TRIED_ENTRIES_INSPECT_ON_EVICT)
    && forall i | 0 <= i < |places| :: i <= places[i] < |s|
  }

  function Drawn(s: seq<nat>, places: seq<nat>, i: nat): nat
    requires i < |places| <= |s| && forall j | 0 <= j < |places| :: places[j] < |s|
  {
    Shuffled(s, places[..i])[places[i]]
  }

  /** The draw number `best` gave the entry whose last success is longest ago, the first of these. */
  ghost predicate Oldest(mi: Infos, s: seq<nat>, places: seq<nat>, best: nat)
    requires |places| <= |s| && forall j | 0 <= j < |places| :: places[j] < |s|
  {
    && best < |places| && Drawn(s, places, best) in mi
    && forall i | 0 <= i < |places| ::
         Drawn(s, places, i) in mi && mi[Drawn(s, places, best)].nLastSuccess <= mi[Drawn(s, places, i)].nLastSuccess &&
         (i < best ==> mi[Drawn(s, places, best)].nLastSuccess < mi[Drawn(s, places, i)].nLastSuccess)
  }

  lemma {:induction false} ShuffledKeeps(s: seq<nat>, places: seq<nat>)
    requires Distinct(s) && |places| <= |s| && forall i | 0 <= i < |places| :: places[i] < |s|
    ensures Distinct(Shuffled(s, places)) && multiset(Shuffled(s, places)) == multiset(s)
  {
    hide Distinct;
    if places != [] {
      var k := |places| - 1;
      ShuffledKeeps(s, places[..k]);
      SwapKeeps(Shuffled(s, places[..k]), k, places[k]);
    }
  }

  /** Each drawn entry stays where it was swapped to. */
  lemma {:induction false} DrawnStays(s: seq<nat>, places: seq<nat>, i: nat)
    requires i < |places| <= |s| && forall j | 0 <= j < |places| :: j <= places[j] < |s|
    ensures Shuffled(s, places)[i] == Drawn(s, places, i)
  {
    var k := |places| - 1;
    if i < k {
      DrawnStays(s, places[..k], i);
      assert places[..k][..i] == places[..i];
    }
  }

  /** What stands in the end where the oldest entry was drawn from is that entry only if it was drawn
      from its own place. */
  lemma PlaceOfDrawn(s: seq<nat>, places: seq<nat>, m: nat)
    requires Distinct(s) && Drawing(s, places) && m < |places|
    ensures Shuffled(s, places)[places[m]] == Drawn(s, places, m) <==> places[m] == m
  {
    DrawnStays(s, places, m);
    ShuffledKeeps(s, places);
  }

  /** The entry that stands, after some draws, where the oldest drawn one was drawn from. */
  ghost predicate PickedOut(mi: Infos, s: seq<nat>, places: seq<nat>, best: nat, out: nat) {
    Drawing(s, places) && Oldest(mi, s, places, best) && out == Shuffled(s, places)[places[best]]
  }

  ghost predicate FromDraws(mi: Infos, s: seq<nat>, out: nat) {
    exists places: seq<nat>, best: nat :: PickedOut(mi, s, places, best, out)
  }

  lemma OldestSame(mi: Infos, mi': Infos, s: seq<nat>, places: seq<nat>, best: nat)
    requires |places| <= |s| && forall j | 0 <= j < |places| :: places[j] < |s|
    requires Oldest(mi, s, places, best) && mi.Keys == mi'.Keys && forall n | n in mi :: mi'[n].nLastSuccess == mi[n].nLastSuccess
    ensures Oldest(mi', s, places, best)
  {
    hide Drawn;
  }

  /** Reordering a tried bucket breaks nothing. */
  lemma BucketPermuted(bucketOf: Service -> nat, mi: Infos, vt: seq<seq<nat>>, k: nat, s: seq<nat>)
    requires TriedOk(bucketOf, mi, vt) && k < |vt| && Distinct(s) && multiset(s) == multiset(vt[k])
    ensures TriedOk(bucketOf, mi, vt[k := s])
  {
    SameMembers(s, vt[k]);
  }

  /** An entry that is in no "new" bucket any more and counts none. */
  lemma NewErased(mi: Infos, vv: seq<set<nat>>, vv': seq<set<nat>>, id: nat, info: Info)
    requires NewOk(mi, vv, -1) && id in mi && info.nRefCount == 0
    requires |vv'| == |vv| && forall b | 0 <= b < |vv| :: vv'[b] == vv[b] - {id}
    ensures NewOk(mi[id := info], vv', -1)
  {
    var mi' := mi[id := info];
    forall n | n in mi' ensures mi'[n].nRefCount == Count(vv', n) {
      CountErased(vv, vv', id, n);
    }
    forall b | 0 <= b < |vv| ensures |vv'[b]| <= NEW_BUCKET_SIZE {
      SmallerSet(vv'[b], vv[b]);
    }
  }

  lemma SmallerSet(a: set<nat>, b: set<nat>)
    requires a <= b
    ensures |a| <= |b|
  {
    assert b == a + (b - a);
  }

  /** Moving an entry to the end of its tried bucket. */
  lemma TriedAppended(bucketOf: Service -> nat, mi: Infos, vt: seq<seq<nat>>, id: nat, info: Info)
    requires TriedOk(bucketOf, mi, vt) && id in mi && !mi[id].fInTried
    requires info.fInTried && info.addr == mi[id].addr && bucketOf(info.addr) < |vt| && |vt[bucketOf(info.addr)]| < TRIED_BUCKET_SIZE
    ensures var k := bucketOf(info.addr); TriedOk(bucketOf, mi[id := info], vt[k := vt[k] + [id]])
  {
    var k := bucketOf(info.addr);
    var mi', vt' := mi[id := info], vt[k := vt[k] + [id]];
    assert id !in vt[k];
    forall b, n | 0 <= b < |vt'| && n in vt'[b] ensures n in mi' && mi'[n].fInTried && bucketOf(mi'[n].addr) == b {
      assert n == id || n in vt[b];
    }
  }

  function Put(s: seq<nat>, pos: nat, id: nat): seq<nat>
    requires pos < |s|
  {
    s[pos := id]
  }

  /** Replacing a tried entry by another one of the same bucket. */
  lemma TriedReplaced(bucketOf: Service -> nat, mi: Infos, vt: seq<seq<nat>>, id: nat, info: Info, pos: nat, old': Info)
    requires TriedOk(bucketOf, mi, vt) && id in mi && !mi[id].fInTried
    requires info.fInTried && info.addr == mi[id].addr && bucketOf(info.addr) < |vt| && pos < |vt[bucketOf(info.addr)]|
    requires var out := vt[bucketOf(info.addr)][pos]; out in mi && old'.addr == mi[out].addr && !old'.fInTried
    ensures var k := bucketOf(info.addr); var out := vt[k][pos];
            id != out && TriedOk(bucketOf, mi[out := old'][id := info], vt[k := Put(vt[k], pos, id)])
  {
    var k := bucketOf(info.addr);
    var out := vt[k][pos];
    var mi', vt' := mi[out := old'][id := info], vt[k := Put(vt[k], pos, id)];
    assert out in vt[k] && mi[out].fInTried && id !in vt[k];
    forall b, n | 0 <= b < |vt'| && n in vt'[b] ensures n in mi' && mi'[n].fInTried && bucketOf(mi'[n].addr) == b {
      Replaced(vt[k], pos, id, n);
      assert n == id || (n in vt[b] && n != out);
    }
    forall n | n in mi' && mi'[n].fInTried ensures n in vt'[bucketOf(mi'[n].addr)] {
      Replaced(vt[k], pos, id, n);
    }
  }

  lemma Replaced(s: seq<nat>, pos: nat, id: nat, n: nat)
    requires pos < |s| && Distinct(s) && id !in s
    ensures n in s[pos := id] <==> n == id || (n in s && n != s[pos])
  {
    if n in s && n != s[pos] {
      var i :| 0 <= i < |s| && s[i] == n;
      assert s[pos := id][i] == n;
    }
    assert s[pos := id][pos] == id;
  }

  lemma CountsPromoted(mi: Infos, nNew: int, nTried: int, id: nat, info: Info)
    requires CountsOk(mi, nNew, nTried) && id in mi && !mi[id].fInTried && info.fInTried
    ensures CountsOk(mi[id := info], nNew - 1, nTried + 1)
  {
    assert NewIds(mi[id := info]) == NewIds(mi) - {id};
    assert TriedIds(mi[id := info]) == TriedIds(mi) + {id};
  }

  lemma CountsDemoted(mi: Infos, nNew: int, nTried: int, id: nat, info: Info)
    requires CountsOk(mi, nNew, nTried) && id in mi && mi[id].fInTried && !info.fInTried
    ensures CountsOk(mi[id := info], nNew + 1, nTried - 1)
  {
    assert NewIds(mi[id := info]) == NewIds(mi) + {id};
    assert TriedIds(mi[id := info]) == TriedIds(mi) - {id};
  }

  /** An entry with room in its tried bucket becomes tried. */
  lemma Promoted(bucketOf: Service -> nat, mi: Infos, vr: seq<nat>, ma: map<nat, nat>, vv: seq<set<nat>>, vt: seq<seq<nat>>,
                 nIdCount: nat, nNew: int, nTried: int, id: nat, info: Info, vv': seq<set<nat>>)
    requires AllOk(bucketOf, mi, vr, ma, vv, vt, nIdCount, nNew, nTried, -1)
    requires id in mi && !mi[id].fInTried && mi[id].nLastSuccess != 0 && info == mi[id].(nRefCount := 0, fInTried := true)
    requires |vv'| == |vv| && forall b | 0 <= b < |vv| :: vv'[b] == vv[b] - {id}
    requires bucketOf(info.addr) < |vt| && |vt[bucketOf(info.addr)]| < TRIED_BUCKET_SIZE
    ensures var k := bucketOf(info.addr);
            AllOk(bucketOf, mi[id := info], vr, ma, vv', vt[k := vt[k] + [id]], nIdCount, nNew - 1, nTried + 1, -1)
  {
    hide RandomOk, AddrOk, NewOk, TriedOk, CountsOk, InfosOk;
    KnownInfo(mi, nIdCount, id);
    PlacesKept(mi, mi[id := info], vr, ma);
    NewErased(mi, vv, vv', id, info);
    TriedAppended(bucketOf, mi, vt, id, info);
    CountsPromoted(mi, nNew, nTried, id, info);
    InfoChanged(mi, id, info, nIdCount);
  }

  /** An entry takes the place of another in a full tried bucket; the other one becomes new
      again, in bucket `b`. */
  lemma Replaces(bucketOf: Service -> nat, mi: Infos, vr: seq<nat>, ma: map<nat, nat>, vv: seq<set<nat>>, vt: seq<seq<nat>>,
                 nIdCount: nat, nNew: int, nTried: int, id: nat, info: Info, vv': seq<set<nat>>, pos: nat, b: nat)
    requires AllOk(bucketOf, mi, vr, ma, vv, vt, nIdCount, nNew, nTried, -1)
    requires id in mi && !mi[id].fInTried && mi[id].nLastSuccess != 0 && info == mi[id].(nRefCount := 0, fInTried := true)
    requires |vv'| == |vv| && forall b | 0 <= b < |vv| :: vv'[b] == vv[b] - {id}
    requires bucketOf(info.addr) < |vt| && pos < |vt[bucketOf(info.addr)]|
    requires b < |vv'| && |vv'[b]| < NEW_BUCKET_SIZE
    ensures var k := bucketOf(info.addr); var out := vt[k][pos];
            && out in mi && out != id && mi[out].fInTried
            && AllOk(bucketOf, mi[out := mi[out].(nRefCount := 1, fInTried := false)][id := info], vr, ma,
                     vv'[b := vv'[b] + {out}], vt[k := Put(vt[k], pos, id)], nIdCount, nNew, nTried, -1)
  {
    hide RandomOk, AddrOk, NewOk, TriedOk, CountsOk, InfosOk;
    var k := bucketOf(info.addr);
    var out := vt[k][pos];
    TriedMember(bucketOf, mi, vt, k, out, nIdCount);
    var old' := mi[out].(nRefCount := 1, fInTried := false);
    NewErased(mi, vv, vv', id, info);
    ReplacedNew(mi[id := info], vv', out, old', b);
    ReplacedElsewhere(bucketOf, mi, vr, ma, vt, nIdCount, nNew, nTried, id, info, pos, out, old');
    assert mi[out := old'][id := info] == mi[id := info][out := old'];
  }

  lemma TriedMember(bucketOf: Service -> nat, mi: Infos, vt: seq<seq<nat>>, k: nat, out: nat, nIdCount: nat)
    requires TriedOk(bucketOf, mi, vt) && InfosOk(mi, nIdCount) && k < |vt| && out in vt[k]
    ensures out in mi && mi[out].fInTried && bucketOf(mi[out].addr) == k && InfoOk(mi[out])
  {
  }

  lemma ReplacedNew(mi: Infos, vv: seq<set<nat>>, out: nat, old': Info, b: nat)
    requires NewOk(mi, vv, -1) && out in mi && mi[out].nRefCount == 0 && old'.nRefCount == 1
    requires b < |vv| && |vv[b]| < NEW_BUCKET_SIZE
    ensures NewOk(mi[out := old'], vv[b := vv[b] + {out}], -1)
  {
    CountPositive(vv, out);
    BucketChanged(mi, mi[out := old'], vv, b, vv[b] + {out}, out, -1, -1);
  }

  lemma ReplacedElsewhere(bucketOf: Service -> nat, mi: Infos, vr: seq<nat>, ma: map<nat, nat>, vt: seq<seq<nat>>,
                          nIdCount: nat, nNew: int, nTried: int, id: nat, info: Info, pos: nat, out: nat, old': Info)
    requires RandomOk(mi, vr) && AddrOk(mi, ma) && TriedOk(bucketOf, mi, vt) && InfosOk(mi, nIdCount) && CountsOk(mi, nNew, nTried)
    requires id in mi && !mi[id].fInTried && mi[id].nLastSuccess != 0 && info == mi[id].(nRefCount := 0, fInTried := true)
    requires bucketOf(info.addr) < |vt| && pos < |vt[bucketOf(info.addr)]| && out == vt[bucketOf(info.addr)][pos]
    requires out in mi && mi[out].fInTried && old' == mi[out].(nRefCount := 1, fInTried := false)
    ensures var k := bucketOf(info.addr); var mi' := mi[out := old'][id := info];
            && RandomOk(mi', vr) && AddrOk(mi', ma) && TriedOk(bucketOf, mi', vt[k := Put(vt[k], pos, id)])
            && InfosOk(mi', nIdCount) && CountsOk(mi', nNew, nTried)
  {
    hide RandomOk, AddrOk, TriedOk, CountsOk, InfosOk;
    KnownInfo(mi, nIdCount, id);
    KnownInfo(mi, nIdCount, out);
    PlacesKept(mi, mi[out := old'][id := info], vr, ma);
    TriedReplaced(bucketOf, mi, vt, id, info, pos, old');
    CountsDemoted(mi, nNew, nTried, out, old');
    CountsPromoted(mi[out := old'], nNew + 1, nTried - 1, id, info);
    InfoChanged(mi, out, old', nIdCount);
    InfoChanged(mi[out := old'], id, info, nIdCount);
  }

  lemma BucketCounts(bucketOf: Service -> nat, mi: Infos, vv: seq<set<nat>>, vt: seq<seq<nat>>, pending: int)
    requires NewOk(mi, vv, pending) && TriedOk(bucketOf, mi, vt)
    ensures |vv| == NEW_BUCKET_COUNT && |vt| == TRIED_BUCKET_COUNT
    ensures forall b | 0 <= b < |vv| :: |vv[b]| <= NEW_BUCKET_SIZE
  {
  }

  lemma PutMultiset(s: seq<nat>, pos: nat, id: nat)
    requires pos < |s|
    ensures multiset(Put(s, pos, id)) == multiset(s) - multiset{s[pos]} + multiset{id}
  {
  }

  /** Moving entries about in vRandom leaves the other tables alone. */
  lemma MovedKept(bucketOf: Service -> nat, mi: Infos, mi': Infos, ma: map<nat, nat>, vv: seq<set<nat>>, vt: seq<seq<nat>>,
                  nIdCount: nat, nNew: int, nTried: int)
    requires AddrOk(mi, ma) && NewOk(mi, vv, -1) && TriedOk(bucketOf, mi, vt) && InfosOk(mi, nIdCount) && CountsOk(mi, nNew, nTried)
    requires mi'.Keys == mi.Keys && Moved(mi, mi')
    ensures AddrOk(mi', ma) && NewOk(mi', vv, -1) && TriedOk(bucketOf, mi', vt) && InfosOk(mi', nIdCount) && CountsOk(mi', nNew, nTried)
  {
    hide TriedOk, CountsOk;
    KindsKept(bucketOf, mi, mi', vt, nNew, nTried);
  }
}
