/** The address manager: its operations, each keeping all tables consistent. */
module AddrMan {
  import opened AddrTables
  import opened AddrDisk

  /** A network address as announced: CAddress. */
  datatype Address = Address(service: Service, nServices: set<nat>, nTime: int, routable: bool)

  /** Some number below `n`; the distribution is not modelled. */
  method GetRandInt(n: nat) returns (r: nat)
    ensures n > 0 ==> r < n
  {
    r := *;
    if r >= n {
      r := 0;
    }
  }

  /** Where the iteration over an ordered set starts. */
  method First(s: set<nat>) returns (n: nat)
    requires s != {}
    ensures IsLeast(s, n)
  {
    LeastExists(s);
    n :| n in s && forall m | m in s :: n <= m;
  }

  /** How many members of the set come before `n`. */
  ghost function Rank(s: set<nat>, n: nat): nat {
    |set m | m in s && m < n|
  }

  lemma RankIsPlace(s: set<nat>, rest: set<nat>, n: nat)
    requires rest <= s && IsLeast(rest, n) && forall k, m | k in s && k !in rest && m in rest :: k < m
    ensures Rank(s, n) + |rest| == |s|
  {
    assert (set m | m in s && m < n) == s - rest;
  }

  /** The time an entry was last seen, after an announcement: earlier by the penalty, and only
      when that is news. */
  function SeenTime(known: int, announced: int, nTimePenalty: int, nNow: int): int {
    var nUpdateInterval := if nNow - announced < 24 * 60 * 60 then 60 * 60 else 24 * 60 * 60;
    if announced != 0 && (known == 0 || known < announced - nUpdateInterval - nTimePenalty)
    then (if announced > nTimePenalty then announced - nTimePenalty else 0) else known
  }

  /** An announcement never makes a known entry older, nor newer than it says; it changes the time
      only to what it says less the penalty, and only from a time that lies an hour or a day before
      that, or from none. */
  lemma SeenLater(known: nat, announced: nat, nTimePenalty: nat, nNow: int)
    ensures var t := SeenTime(known, announced, nTimePenalty, nNow);
            && known <= t && (t <= known || t <= announced)
            && (t != known ==> t == announced - nTimePenalty && (known == 0 || t - known > 3600) && (nNow - announced >= 86_400 && known > 0 ==> t - known > 86_400))
            && (announced - nTimePenalty > 0 && (known == 0 || announced - nTimePenalty - known > 86_400) ==> t == announced - nTimePenalty)
  {
  }

  /** A new entry as announced, in one bucket. */
  function Announced(addr: Address, source: nat, nTimePenalty: int): Info {
    Info(addr.service, addr.nServices, if addr.nTime > nTimePenalty then addr.nTime - nTimePenalty else 0, 0, source, 0, 0, 1, false, 0)
  }

  /** `gone` has left a full bucket: the first entry in it that is terrible, or if there is none the
      one seen longest ago among four drawn ones; it ends if this was its last reference. */
  ghost predicate Left(mi: Infos, mi': Infos, bucket: set<nat>, nNow: int, gone: nat, draws: seq<nat>) {
    && gone in bucket && gone in mi
    && (if exists n :: n in bucket && n in mi && IsTerrible(mi[n], nNow) then
          IsTerrible(mi[gone], nNow) && forall n | n in bucket && n in mi && IsTerrible(mi[n], nNow) :: gone <= n
        else
          |draws| == 4 && Rank(bucket, gone) in draws && forall n | n in bucket && n in mi && Rank(bucket, n) in draws :: mi[gone].nTime <= mi[n].nTime)
    && mi'.Keys == (if mi[gone].nRefCount == 1 then mi.Keys - {gone} else mi.Keys)
    && (forall n | n in mi' && n != gone :: mi'[n] == mi[n].(nRandomPos := mi'[n].nRandomPos))
    && (gone in mi' ==> mi'[gone] == mi[gone].(nRefCount := mi[gone].nRefCount - 1))
  }

  /** `nId` was put into a bucket; from a full one another entry has left. */
  ghost predicate PutIn(mi: Infos, mi': Infos, vv: seq<set<nat>>, vv': seq<set<nat>>, b: nat, nId: nat, nNow: int, gone: nat, draws: seq<nat>) {
    && b < |vv|
    && if |vv[b]| < NEW_BUCKET_SIZE then mi' == mi && vv' == vv[b := vv[b] + {nId}]
       else Left(mi, mi', vv[b], nNow, gone, draws) && vv' == vv[b := vv[b] - {gone} + {nId}]
  }

  /** What an announcement says of a known entry. */
  function Refreshed(info: Info, addr: Address, nTimePenalty: int, nNow: int): Info {
    info.(nTime := SeenTime(info.nTime, addr.nTime, nTimePenalty, nNow), nServices := info.nServices + addr.nServices)
  }

  /** A known entry may go into one more bucket: it was announced later than it was seen, is not
      tried, and is not in as many buckets as it may be. */
  predicate MaySpread(info: Info, addr: Address) {
    addr.nTime != 0 && (info.nTime == 0 || info.nTime < addr.nTime) && !info.fInTried && info.nRefCount < NEW_BUCKETS_PER_ADDRESS
  }

  class CAddrMan {
    const triedHash: Service -> nat
    const newHash: (nat, nat) -> nat
    var nIdCount: nat
    var mapInfo: Infos
    var mapAddr: map<nat, nat>
    var vRandom: seq<nat>
    var nTried: int
    var vvTried: seq<seq<nat>>
    var nNew: int
    var vvNew: seq<set<nat>>

    function GetTriedBucket(s: Service): nat {
      triedHash(s) % TRIED_BUCKET_COUNT
    }

    function GetNewBucket(ip: nat, source: nat): nat {
      newHash(ip, source) % NEW_BUCKET_COUNT
    }

    /** All tables are consistent, but for one count that is ahead of its bucket. */
    ghost predicate Inv(pending: int)
      reads this
    {
      AllOk(GetTriedBucket, mapInfo, vRandom, mapAddr, vvNew, vvTried, nIdCount, nNew, nTried, pending)
    }

    ghost predicate Valid()
      reads this
    {
      Inv(-1)
    }

    constructor (tried: Service -> nat, new': (nat, nat) -> nat)
      ensures Valid() && mapInfo == map[] && triedHash == tried && newHash == new'
    {
      triedHash, newHash := tried, new';
      nIdCount, mapInfo, mapAddr, vRandom := 0, map[], map[], [];
      nTried, vvTried := 0, EmptyTried();
      nNew, vvNew := 0, EmptyNew();
    }

    method Find(ip: nat) returns (found: bool, nId: nat)
      requires AddrOk(mapInfo, mapAddr)
      ensures found <==> exists n :: n in mapInfo && mapInfo[n].addr.ip == ip
      ensures found <==> ip in mapAddr
      ensures found ==> nId in mapInfo && mapInfo[nId].addr.ip == ip && nId == mapAddr[ip]
    {
      if ip !in mapAddr {
        return false, 0;
      }
      nId := mapAddr[ip];
      found := nId in mapInfo;
    }

    method SwapRandom(nRndPos1: nat, nRndPos2: nat)
      requires RandomOk(mapInfo, vRandom) && nRndPos1 < |vRandom| && nRndPos2 < |vRandom|
      modifies this`mapInfo, this`vRandom
      ensures RandomOk(mapInfo, vRandom)
      ensures vRandom == old(vRandom)[nRndPos1 := old(vRandom)[nRndPos2]][nRndPos2 := old(vRandom)[nRndPos1]]
      ensures mapInfo.Keys == old(mapInfo).Keys
      ensures forall n | n in mapInfo :: mapInfo[n] == old(mapInfo)[n].(nRandomPos := mapInfo[n].nRandomPos)
    {
      if nRndPos1 == nRndPos2 {
        return;
      }
      var nId1, nId2 := vRandom[nRndPos1], vRandom[nRndPos2];
      mapInfo := mapInfo[nId1 := mapInfo[nId1].(nRandomPos := nRndPos2)];
      mapInfo := mapInfo[nId2 := mapInfo[nId2].(nRandomPos := nRndPos1)];
      vRandom := vRandom[nRndPos1 := nId2];
      vRandom := vRandom[nRndPos2 := nId1];
    }

    /** The end of an entry: swap it to the back of vRandom and drop it. */
    method Remove(nId: nat)
      requires RandomOk(mapInfo, vRandom) && AddrOk(mapInfo, mapAddr) && nId in mapInfo
      modifies this`mapInfo, this`vRandom, this`mapAddr
      ensures RandomOk(mapInfo, vRandom) && AddrOk(mapInfo, mapAddr)
      ensures mapInfo.Keys == old(mapInfo).Keys - {nId} && Moved(old(mapInfo), mapInfo)
      ensures mapAddr == old(mapAddr) - {old(mapInfo)[nId].addr.ip}
    {
      var info := mapInfo[nId];
      SwapRandom(info.nRandomPos, |vRandom| - 1);
      assert vRandom[|vRandom| - 1] == nId;
      vRandom := vRandom[..|vRandom| - 1];
      mapAddr := mapAddr - {info.addr.ip};
      mapInfo := mapInfo - {nId};
    }
  
    /** How ShrinkNew lets go of an id: one reference less, the end of the entry if it was the
        last, and out of the bucket. */
    method Release(nUBucket: nat, nId: nat, ghost pending: int)
      requires Inv(pending) && nUBucket < NEW_BUCKET_COUNT && nId in vvNew[nUBucket] && nId != pending
      modifies this`mapInfo, this`vRandom, this`mapAddr, this`nNew, this`vvNew
      ensures Inv(pending) && vvNew == old(vvNew)[nUBucket := old(vvNew)[nUBucket] - {nId}]
      ensures mapInfo.Keys == if old(mapInfo)[nId].nRefCount == 1 then old(mapInfo).Keys - {nId} else old(mapInfo).Keys
      ensures forall n | n in mapInfo && n != nId :: mapInfo[n] == old(mapInfo)[n].(nRandomPos := mapInfo[n].nRandomPos)
      ensures nId in mapInfo ==> mapInfo[nId] == old(mapInfo)[nId].(nRefCount := old(mapInfo)[nId].nRefCount - 1)
    {
      hide RandomOk, AddrOk, TriedOk, CountsOk, InfosOk;
      ghost var mi, vv := mapInfo, vvNew;
      InBucket(mi, vv, pending, nIdCount, nUBucket, nId);
      var info := mapInfo[nId];
      if info.nRefCount - 1 == 0 {
        Remove(nId);
        nNew := nNew - 1;
        EntryGone(mi, mapInfo, vv, nUBucket, nId, pending);
        OthersKept(GetTriedBucket, mi, mapInfo, vvTried, nIdCount, nNew + 1, nTried, nId);
      } else {
        mapInfo := mapInfo[nId := info.(nRefCount := info.nRefCount - 1)];
        InfoChanged(mi, nId, mapInfo[nId], nIdCount);
        PlacesKept(mi, mapInfo, vRandom, mapAddr);
        BucketChanged(mi, mapInfo, vv, nUBucket, vv[nUBucket] - {nId}, nId, pending, pending);
        KindsKept(GetTriedBucket, mi, mapInfo, vvTried, nNew, nTried);
      }
      vvNew := vvNew[nUBucket := vvNew[nUBucket] - {nId}];
    }
  
    /** ShrinkNew, first part: the first entry that is terrible. */
    method FindTerrible(vNew: set<nat>, nNow: int) returns (found: bool, nId: nat)
      requires vNew <= mapInfo.Keys
      ensures found ==> nId in vNew && IsTerrible(mapInfo[nId], nNow)
      ensures forall n | n in vNew && (found ==> n < nId) :: !IsTerrible(mapInfo[n], nNow)
    {
      var rest := vNew;
      nId := 0;
      while rest != {}
        invariant rest <= vNew
        invariant forall n, m | n in vNew && n !in rest && m in rest :: n < m
        invariant forall n | n in vNew && n !in rest :: !IsTerrible(mapInfo[n], nNow)
        decreases |rest|
      {
        nId := First(rest);
        if IsTerrible(mapInfo[nId], nNow) {
          return true, nId;
        }
        rest := rest - {nId};
      }
      found := false;
    }

    /** ShrinkNew, second part: the one seen longest ago among four random entries. */
    method FindOldest(vNew: set<nat>) returns (nOldest: nat, ghost draws: seq<nat>)
      requires vNew != {} && vNew <= mapInfo.Keys
      ensures |draws| == 4 && nOldest in vNew && nOldest in mapInfo && Rank(vNew, nOldest) in draws
      ensures forall n | n in vNew && n in mapInfo && Rank(vNew, n) in draws :: mapInfo[nOldest].nTime <= mapInfo[n].nTime
    {
      hide Rank;
      var n0 := GetRandInt(|vNew|);
      var n1 := GetRandInt(|vNew|);
      var n2 := GetRandInt(|vNew|);
      var n3 := GetRandInt(|vNew|);
      draws := [n0, n1, n2, n3];
      var rest, nI, found := vNew, 0, false;
      nOldest := 0;
      while rest != {}
        invariant rest <= vNew && |rest| + nI == |vNew|
        invariant forall n, m | n in vNew && n !in rest && m in rest :: n < m
        invariant found ==> nOldest in vNew && Rank(vNew, nOldest) in draws
        invariant forall n | n in vNew && n !in rest && Rank(vNew, n) in draws :: found && mapInfo[nOldest].nTime <= mapInfo[n].nTime
        invariant !found ==> n0 >= nI
        decreases |rest|
      {
        var nId := First(rest);
        RankIsPlace(vNew, rest, nId);
        if nI == n0 || nI == n1 || nI == n2 || nI == n3 {
          if !found || mapInfo[nId].nTime < mapInfo[nOldest].nTime {
            found, nOldest := true, nId;
          }
        }
        nI := nI + 1;
        rest := rest - {nId};
      }
    }

    /** Make room in a "new" bucket.  `gone` is the entry that leaves it: the first terrible one
        if there is any, else the oldest of four drawn ones. */
    method ShrinkNew(nUBucket: nat, nNow: int, ghost pending: int) returns (r: nat, ghost gone: nat, ghost draws: seq<nat>)
      requires Inv(pending) && nUBucket < NEW_BUCKET_COUNT && vvNew[nUBucket] != {} && (pending >= 0 ==> pending !in vvNew[nUBucket])
      modifies this`mapInfo, this`vRandom, this`mapAddr, this`nNew, this`vvNew
      ensures Inv(pending) && vvNew == old(vvNew)[nUBucket := old(vvNew)[nUBucket] - {gone}]
      ensures Left(old(mapInfo), mapInfo, old(vvNew)[nUBucket], nNow, gone, draws)
      ensures gone in old(mapInfo) && (r == 0 <==> IsTerrible(old(mapInfo)[gone], nNow))
    {
      hide RandomOk, AddrOk, TriedOk, CountsOk, InfosOk, IsTerrible;
      var found, nId := FindTerrible(vvNew[nUBucket], nNow);
      if found {
        Release(nUBucket, nId, pending);
        return 0, nId, [];
      }
      nId, draws := FindOldest(vvNew[nUBucket]);
      Release(nUBucket, nId, pending);
      return 1, nId, draws;
    }
  
    method Create(addr: Address, source: nat) returns (nId: nat)
      modifies this`nIdCount, this`mapInfo, this`mapAddr, this`vRandom
      ensures nId == old(nIdCount) && nIdCount == nId + 1
      ensures mapInfo == old(mapInfo)[nId := Info(addr.service, addr.nServices, addr.nTime, 0, source, 0, 0, 0, false, |old(vRandom)|)]
      ensures mapAddr == old(mapAddr)[addr.service.ip := nId] && vRandom == old(vRandom) + [nId]
    {
      nId := nIdCount;
      nIdCount := nIdCount + 1;
      mapInfo := mapInfo[nId := Info(addr.service, addr.nServices, addr.nTime, 0, source, 0, 0, 0, false, -1)];
      mapAddr := mapAddr[addr.service.ip := nId];
      mapInfo := mapInfo[nId := mapInfo[nId].(nRandomPos := |vRandom|)];
      vRandom := vRandom + [nId];
    }

    /** Add_, for an address that is known: refresh what is known of it, and decide whether to put
        it in one more bucket. */
    method Refresh(nId: nat, addr: Address, nTimePenalty: int, nNow: int) returns (more: bool)
      requires Valid() && nId in mapInfo
      modifies this`mapInfo
      ensures Valid() && mapInfo.Keys == old(mapInfo).Keys
      ensures forall n | n in mapInfo && n != nId :: mapInfo[n] == old(mapInfo)[n]
      ensures mapInfo[nId] == Refreshed(old(mapInfo)[nId], addr, nTimePenalty, nNow)
      ensures more ==> MaySpread(mapInfo[nId], addr)
    {
      hide RandomOk, AddrOk, TriedOk, CountsOk, NewOk, InfosOk;
      KnownInfo(mapInfo, nIdCount, nId);
      var info := mapInfo[nId];
      var fCurrentlyOnline := nNow - addr.nTime < 24 * 60 * 60;
      var nUpdateInterval := if fCurrentlyOnline then 60 * 60 else 24 * 60 * 60;
      if addr.nTime != 0 && (info.nTime == 0 || info.nTime < addr.nTime - nUpdateInterval - nTimePenalty) {
        info := info.(nTime := if 0 < addr.nTime - nTimePenalty then addr.nTime - nTimePenalty else 0);
      }
      info := info.(nServices := info.nServices + addr.nServices);
      EntryTouched(GetTriedBucket, mapInfo, vRandom, mapAddr, vvNew, vvTried, nIdCount, nNew, nTried, nId, info, -1);
      mapInfo := mapInfo[nId := info];
      if addr.nTime == 0 || (info.nTime != 0 && addr.nTime <= info.nTime) {
        return false;
      }
      if info.fInTried {
        return false;
      }
      if info.nRefCount == NEW_BUCKETS_PER_ADDRESS {
        return false;
      }
      more := OneChanceIn(info.nRefCount);
    }

    /** The stochastic test of Add_: true once in two to the power of `nRefCount` times. */
    static method OneChanceIn(nRefCount: nat) returns (yes: bool)
      ensures nRefCount == 0 ==> yes
    {
      var nFactor := 1;
      for n := 0 to nRefCount
        invariant nFactor >= 1 && (n == 0 ==> nFactor == 1)
      {
        nFactor := nFactor * 2;
      }
      var draw := GetRandInt(nFactor);
      yes := !(nFactor > 1 && draw != 0);
    }

    /** Add_, last part: put an entry that is already counted for it into a bucket, making room
        first if the bucket is full. */
    method PutInBucket(nUBucket: nat, nId: nat, nNow: int) returns (ghost gone: nat, ghost draws: seq<nat>)
      requires Inv(nId) && nUBucket < NEW_BUCKET_COUNT && nId in mapInfo && nId !in vvNew[nUBucket]
      modifies this`mapInfo, this`vRandom, this`mapAddr, this`nNew, this`vvNew
      ensures Valid() && nId in mapInfo && mapInfo[nId] == old(mapInfo)[nId].(nRandomPos := mapInfo[nId].nRandomPos)
      ensures PutIn(old(mapInfo), mapInfo, old(vvNew), vvNew, nUBucket, nId, nNow, gone, draws)
    {
      hide RandomOk, AddrOk, TriedOk, CountsOk, InfosOk, NewOk, Left, Rank;
      gone, draws := nId, [];
      NoLarger(mapInfo, vvNew, nId, nUBucket);
      if |vvNew[nUBucket]| == NEW_BUCKET_SIZE {
        var r;
        r, gone, draws := ShrinkNew(nUBucket, nNow, nId);
        OthersStay(old(mapInfo), mapInfo, old(vvNew)[nUBucket], nNow, gone, draws, nId);
      }
      BucketChanged(mapInfo, mapInfo, vvNew, nUBucket, vvNew[nUBucket] + {nId}, nId, nId, -1);
      vvNew := vvNew[nUBucket := vvNew[nUBucket] + {nId}];
    }

    static lemma OthersStay(mi: Infos, mi': Infos, bucket: set<nat>, nNow: int, gone: nat, draws: seq<nat>, nId: nat)
      requires Left(mi, mi', bucket, nNow, gone, draws) && nId in mi && nId !in bucket
      ensures gone in bucket && nId in mi' && nId != gone && mi'[nId] == mi[nId].(nRandomPos := mi'[nId].nRandomPos)
    {
    }

    static lemma NoLarger(mi: Infos, vv: seq<set<nat>>, pending: int, b: nat)
      requires NewOk(mi, vv, pending) && b < NEW_BUCKET_COUNT
      ensures |vv| == NEW_BUCKET_COUNT && |vv[b]| <= NEW_BUCKET_SIZE
    {
    }

    /** A new address gets an entry in the bucket for it and its source.  What is known of an address
        is refreshed, and it may go into one more bucket, that for it and this source. */
    method Add_(addr: Address, source: nat, nTimePenalty: int, nNow: int) returns (fNew: bool, ghost gone: nat, ghost draws: seq<nat>)
      requires Valid()
      modifies this`nIdCount, this`mapInfo, this`vRandom, this`mapAddr, this`nNew, this`vvNew
      ensures Valid()
      ensures fNew <==> addr.routable && addr.service.ip !in old(mapAddr)
      ensures addr.routable ==> addr.service.ip in mapAddr
      ensures !addr.routable ==> mapInfo == old(mapInfo) && vvNew == old(vvNew)
      ensures fNew ==> var nId, b := mapAddr[addr.service.ip], GetNewBucket(addr.service.ip, source);
                       && nId == old(nIdCount) && nId in mapInfo && nId in vvNew[b]
                       && mapInfo[nId] == Announced(addr, source, nTimePenalty).(nRandomPos := mapInfo[nId].nRandomPos)
                       && PutIn(old(mapInfo)[nId := Announced(addr, source, nTimePenalty).(nRandomPos := |old(vRandom)|)], mapInfo,
                                old(vvNew), vvNew, b, nId, nNow, gone, draws)
      ensures addr.routable && !fNew ==>
                var nId, b := old(mapAddr)[addr.service.ip], GetNewBucket(addr.service.ip, source);
                && nId in old(mapInfo) && nId in mapInfo && b < |old(vvNew)|
                && var info := Refreshed(old(mapInfo)[nId], addr, nTimePenalty, nNow);
                   || (mapInfo == old(mapInfo)[nId := info] && vvNew == old(vvNew))
                   || (MaySpread(info, addr) && nId !in old(vvNew)[b] &&
                       PutIn(old(mapInfo)[nId := info.(nRefCount := info.nRefCount + 1)], mapInfo, old(vvNew), vvNew, b, nId, nNow, gone, draws))
    {
      hide RandomOk, TriedOk, CountsOk, InfosOk, NewOk, SeenTime, PutIn;
      gone, draws := 0, [];
      if !addr.routable {
        return false, gone, draws;
      }
      var found, nId := Find(addr.service.ip);
      if found {
        ghost var mi := mapInfo;
        var more := Refresh(nId, addr, nTimePenalty, nNow);
        assert mapInfo == mi[nId := Refreshed(mi[nId], addr, nTimePenalty, nNow)];
        BucketsThere(mapInfo, vvNew);
        if !more {
          return false, gone, draws;
        }
        ghost var info := mapInfo[nId];
        assert mapInfo[nId := info.(nRefCount := info.nRefCount + 1)] == mi[nId := info.(nRefCount := info.nRefCount + 1)];
        gone, draws := CountOneMore(nId, addr.service.ip, source, nNow);
        return false, gone, draws;
      }
      gone, draws := AddNew(addr, source, nTimePenalty, nNow);
      fNew := true;
    }

    static lemma BucketsThere(mi: Infos, vv: seq<set<nat>>)
      requires NewOk(mi, vv, -1)
      ensures |vv| == NEW_BUCKET_COUNT
    {
    }

    /** Add_, last part, for a known entry. */
    method CountOneMore(nId: nat, ip: nat, source: nat, nNow: int) returns (ghost gone: nat, ghost draws: seq<nat>)
      requires Valid() && nId in mapInfo && !mapInfo[nId].fInTried && mapInfo[nId].nRefCount < NEW_BUCKETS_PER_ADDRESS
      modifies this`mapInfo, this`vRandom, this`mapAddr, this`nNew, this`vvNew
      ensures Valid() && nId in mapInfo && GetNewBucket(ip, source) < |old(vvNew)| && mapInfo[nId].addr == old(mapInfo)[nId].addr
      ensures var b := GetNewBucket(ip, source);
              if nId in old(vvNew)[b] then mapInfo == old(mapInfo) && vvNew == old(vvNew)
              else PutIn(old(mapInfo)[nId := old(mapInfo)[nId].(nRefCount := old(mapInfo)[nId].nRefCount + 1)], mapInfo,
                         old(vvNew), vvNew, b, nId, nNow, gone, draws)
    {
      hide RandomOk, AddrOk, TriedOk, CountsOk, InfosOk, PutIn;
      gone, draws := nId, [];
      var nUBucket := GetNewBucket(ip, source);
      if nId !in vvNew[nUBucket] {
        KnownInfo(mapInfo, nIdCount, nId);
        var info := mapInfo[nId].(nRefCount := mapInfo[nId].nRefCount + 1);
        EntryTouched(GetTriedBucket, mapInfo, vRandom, mapAddr, vvNew, vvTried, nIdCount, nNew, nTried, nId, info, nId);
        mapInfo := mapInfo[nId := info];
        gone, draws := PutInBucket(nUBucket, nId, nNow);
      }
    }

    /** Add_, for an address that is not known. */
    method AddNew(addr: Address, source: nat, nTimePenalty: int, nNow: int) returns (ghost gone: nat, ghost draws: seq<nat>)
      requires Valid() && addr.service.ip !in mapAddr
      modifies this`nIdCount, this`mapInfo, this`vRandom, this`mapAddr, this`nNew, this`vvNew
      ensures Valid() && addr.service.ip in mapAddr && mapAddr[addr.service.ip] == old(nIdCount)
      ensures var nId, b := old(nIdCount), GetNewBucket(addr.service.ip, source);
              && nId in mapInfo && b < |vvNew| && nId in vvNew[b]
              && mapInfo[nId] == Announced(addr, source, nTimePenalty).(nRandomPos := mapInfo[nId].nRandomPos)
              && PutIn(old(mapInfo)[nId := Announced(addr, source, nTimePenalty).(nRandomPos := |old(vRandom)|)], mapInfo,
                       old(vvNew), vvNew, b, nId, nNow, gone, draws)
    {
      hide RandomOk, TriedOk, CountsOk, NewOk, Left;
      ghost var mi, vr, ma := mapInfo, vRandom, mapAddr;
      gone, draws := 0, [];
      var nId := Create(addr, source);
      var info := mapInfo[nId];
      info := info.(nTime := if 0 < info.nTime - nTimePenalty then info.nTime - nTimePenalty else 0);
      mapInfo := mapInfo[nId := info];
      nNew := nNew + 1;
      var nUBucket := GetNewBucket(addr.service.ip, source);
      NotInBuckets(mi, vvNew, nId, nUBucket);
      if nId !in vvNew[nUBucket] {
        info := info.(nRefCount := info.nRefCount + 1);
        EntryAdded(GetTriedBucket, mi, vr, ma, vvNew, vvTried, nId, nNew - 1, nTried, info);
        assert mi[nId := info] == mapInfo[nId := info];
        mapInfo := mapInfo[nId := info];
        gone, draws := PutInBucket(nUBucket, nId, nNow);
      }
    }

    static lemma NotInBuckets(mi: Infos, vv: seq<set<nat>>, id: nat, b: nat)
      requires NewOk(mi, vv, -1) && id !in mi && b < NEW_BUCKET_COUNT
      ensures |vv| == NEW_BUCKET_COUNT && id !in vv[b]
    {
    }
  
    /** Shuffle the first few entries of a tried bucket, and give the place from which the oldest of
        them was drawn. */
    method SelectTried(nKBucket: nat) returns (nOldestPos: nat, ghost places: seq<nat>, ghost best: nat)
      requires TriedOk(GetTriedBucket, mapInfo, vvTried) && nKBucket < TRIED_BUCKET_COUNT && |vvTried[nKBucket]| > 0
      modifies this`vvTried
      ensures TriedOk(GetTriedBucket, mapInfo, vvTried) && nOldestPos < |vvTried[nKBucket]|
      ensures Drawing(old(vvTried)[nKBucket], places) && Oldest(mapInfo, old(vvTried)[nKBucket], places, best) && nOldestPos == places[best]
      ensures vvTried == old(vvTried)[nKBucket := Shuffled(old(vvTried)[nKBucket], places)]
      ensures multiset(vvTried[nKBucket]) == multiset(old(vvTried)[nKBucket])
    {
      hide Shuffled, Distinct, Drawn, Oldest;
      ghost var s := vvTried[nKBucket];
      var vTried := vvTried[nKBucket];
      var nOldest, found := 0, false;
      nOldestPos, places, best := 0, [], 0;
      NothingDrawn(s);
      var i := 0;
      while i < TRIED_ENTRIES_INSPECT_ON_EVICT && i < |vTried|
        invariant vvTried == old(vvTried) && i == |places| <= TRIED_ENTRIES_INSPECT_ON_EVICT && |places| <= |s| == |vTried|
        invariant forall j | 0 <= j < |places| :: j <= places[j] < |s|
        invariant vTried == Shuffled(s, places)
        invariant found <==> i > 0
        invariant found ==> best < |places| && Oldest(mapInfo, s, places, best)
        invariant found ==> nOldestPos == places[best] && nOldest == Drawn(s, places, best)
        decreases TRIED_ENTRIES_INSPECT_ON_EVICT - i
      {
        var draw := GetRandInt(|vTried| - i);
        var nPos := draw + i;
        var nTemp := vTried[nPos];
        DrawnKnown(GetTriedBucket, mapInfo, vvTried, nKBucket, vTried, places, nPos);
        DrawNext(mapInfo, s, places, best, nPos, found);
        vTried := vTried[nPos := vTried[i]];
        vTried := vTried[i := nTemp];
        if !found || mapInfo[nTemp].nLastSuccess < mapInfo[nOldest].nLastSuccess {
          found, nOldest, nOldestPos := true, nTemp, nPos;
          best := i;
        }
        places := places + [nPos];
        i := i + 1;
      }
      BucketDistinct(GetTriedBucket, mapInfo, vvTried, nKBucket);
      ShuffledKeeps(s, places);
      BucketPermuted(GetTriedBucket, mapInfo, vvTried, nKBucket, vTried);
      vvTried := vvTried[nKBucket := vTried];
    }

    static lemma OutOf(mi': Infos, mi: Infos, s: seq<nat>, places: seq<nat>, best: nat)
      requires Drawing(s, places) && Oldest(mi', s, places, best)
      requires mi.Keys == mi'.Keys && forall n | n in mi :: mi'[n].nLastSuccess == mi[n].nLastSuccess
      ensures places[best] < |s| && FromDraws(mi, s, Shuffled(s, places)[places[best]])
    {
      hide Shuffled, Drawn;
      OldestSame(mi', mi, s, places, best);
      assert PickedOut(mi, s, places, best, Shuffled(s, places)[places[best]]);
    }

    static lemma EvictedKeys(mi: Infos, mi': Infos, vv: seq<set<nat>>, vv': seq<set<nat>>, vt: seq<seq<nat>>, vt': seq<seq<nat>>,
                             k: nat, id: nat, out: nat, b: nat)
      requires Evicted(mi, mi', vv, vv', vt, vt', k, id, out, b)
      ensures id in mi && mi'.Keys == mi.Keys && mi'[id] == mi[id].(nRefCount := 0, fInTried := true)
    {
    }

    static lemma NothingDrawn(s: seq<nat>)
      ensures Shuffled(s, []) == s
    {
    }

    static lemma BucketDistinct(bucketOf: Service -> nat, mi: Infos, vt: seq<seq<nat>>, k: nat)
      requires TriedOk(bucketOf, mi, vt) && k < |vt|
      ensures Distinct(vt[k])
    {
    }

    static lemma DrawnKnown(bucketOf: Service -> nat, mi: Infos, vt: seq<seq<nat>>, k: nat, s: seq<nat>, places: seq<nat>, p: nat)
      requires TriedOk(bucketOf, mi, vt) && k < |vt| && |places| <= |vt[k]| && forall j | 0 <= j < |places| :: places[j] < |vt[k]|
      requires s == Shuffled(vt[k], places) && p < |s|
      ensures s[p] in mi
    {
      hide Shuffled, TriedOk, Distinct;
      BucketDistinct(bucketOf, mi, vt, k);
      ShuffledKeeps(vt[k], places);
      SameMembers(s, vt[k]);
      BucketKnown(bucketOf, mi, vt, k, s[p]);
    }

    static lemma BucketKnown(bucketOf: Service -> nat, mi: Infos, vt: seq<seq<nat>>, k: nat, n: nat)
      requires TriedOk(bucketOf, mi, vt) && k < |vt| && n in vt[k]
      ensures n in mi
    {
    }

    /** One more draw: it is the oldest if it is older than the oldest so far. */
    static lemma DrawNext(mi: Infos, s: seq<nat>, places: seq<nat>, best: nat, p: nat, found: bool)
      requires |places| < |s| && |places| <= p < |s| && forall j | 0 <= j < |places| :: places[j] < |s|
      requires found <==> |places| > 0
      requires found ==> Oldest(mi, s, places, best)
      requires Shuffled(s, places)[p] in mi
      ensures var more := places + [p]; var t := Shuffled(s, places);
              && Shuffled(s, more) == Swapped(t, |places|, p) && Drawn(s, more, |places|) == t[p]
              && (found ==> best < |places| && Drawn(s, more, best) == Drawn(s, places, best) && Drawn(s, places, best) in mi)
              && Oldest(mi, s, more, if !found || mi[t[p]].nLastSuccess < mi[Drawn(s, places, best)].nLastSuccess then |places| else best)
    {
      hide Shuffled;
      var more := places + [p];
      assert more[..|places|] == places;
      ShuffledNext(s, places, p);
      forall i | 0 <= i < |places| ensures Drawn(s, more, i) == Drawn(s, places, i) {
        assert more[..i] == places[..i];
      }
    }

    static lemma ShuffledNext(s: seq<nat>, places: seq<nat>, p: nat)
      requires |places| < |s| && p < |s| && forall j | 0 <= j < |places| :: places[j] < |s|
      ensures Shuffled(s, places + [p]) == Swapped(Shuffled(s, places), |places|, p)
    {
      assert (places + [p])[..|places|] == places;
    }

    /** MakeTried, first part: take an entry out of every "new" bucket. */
    method EraseFromNew(nId: nat)
      requires Valid() && nId in mapInfo && !mapInfo[nId].fInTried
      modifies this`vvNew, this`mapInfo
      ensures |vvNew| == |old(vvNew)| && forall b | 0 <= b < |vvNew| :: vvNew[b] == old(vvNew)[b] - {nId}
      ensures mapInfo == old(mapInfo)[nId := old(mapInfo)[nId].(nRefCount := 0)]
      ensures NewOk(mapInfo, vvNew, -1)
    {
      hide RandomOk, AddrOk, TriedOk, CountsOk;
      ghost var vv := vvNew;
      var nRefCount := mapInfo[nId].nRefCount;
      for b := 0 to |vvNew|
        invariant mapInfo == old(mapInfo) && |vvNew| == |vv| && forall c | 0 <= c < |vv| :: vvNew[c] == if c < b then vv[c] - {nId} else vv[c]
        invariant nRefCount == Count(vvNew, nId)
      {
        if nId in vvNew[b] {
          CountUpdate(vvNew, b, vvNew[b] - {nId}, nId);
          vvNew := vvNew[b := vvNew[b] - {nId}];
          nRefCount := nRefCount - 1;
        }
      }
      CountErased(vv, vvNew, nId, nId);
      NewErased(mapInfo, vv, vvNew, nId, mapInfo[nId].(nRefCount := nRefCount));
      mapInfo := mapInfo[nId := mapInfo[nId].(nRefCount := nRefCount)];
    }
  
    /** Move an entry from the "new" buckets to its tried bucket.  If that is full, an entry of it
        goes back to a "new" bucket: its own if there is room, else the one `nOrigin` where the
        promoted entry was. */
    method MakeTried(nId: nat, nOrigin: nat)
      requires Valid() && nOrigin < NEW_BUCKET_COUNT && nId in vvNew[nOrigin]
      requires nId in mapInfo && mapInfo[nId].nLastSuccess != 0
      modifies this`mapInfo, this`vvNew, this`vvTried, this`nNew, this`nTried
      ensures Valid() && mapInfo.Keys == old(mapInfo).Keys
      ensures mapInfo[nId] == old(mapInfo)[nId].(nRefCount := 0, fInTried := true)
      ensures var k := GetTriedBucket(mapInfo[nId].addr);
              if |old(vvTried)[k]| < TRIED_BUCKET_SIZE then
                && mapInfo == old(mapInfo)[nId := mapInfo[nId]]
                && vvTried == old(vvTried)[k := old(vvTried)[k] + [nId]]
                && forall b | 0 <= b < |vvNew| :: vvNew[b] == old(vvNew)[b] - {nId}
              else exists out: nat :: out in old(vvTried)[k] && out in old(mapInfo) && FromDraws(old(mapInfo), old(vvTried)[k], out) &&
                     Evicted(old(mapInfo), mapInfo, old(vvNew), vvNew, old(vvTried), vvTried, k, nId, out,
                             HomeOf(old(mapInfo)[out], old(vvNew), nId, nOrigin))
    {
      hide RandomOk, AddrOk, NewOk, TriedOk, CountsOk, InfosOk, FromDraws, Evicted, HomeOf;
      ghost var mi, vv := mapInfo, vvNew;
      BucketCounts(GetTriedBucket, mi, vv, vvTried, -1);
      InBucket(mi, vv, -1, nIdCount, nOrigin, nId);
      EraseFromNew(nId);
      nNew := nNew - 1;
      KindsKept(GetTriedBucket, mi, mapInfo, vvTried, nNew + 1, nTried);
      var info := mapInfo[nId];
      var nKBucket := GetTriedBucket(info.addr);
      if |vvTried[nKBucket]| < TRIED_BUCKET_SIZE {
        Promoted(GetTriedBucket, mi, vRandom, mapAddr, vv, vvTried, nIdCount, nNew + 1, nTried, nId, info.(fInTried := true), vvNew);
        vvTried := vvTried[nKBucket := vvTried[nKBucket] + [nId]];
        nTried := nTried + 1;
        mapInfo := mapInfo[nId := info.(fInTried := true)];
        assert mapInfo == mi[nId := mapInfo[nId]];
        return;
      }
      Evict(nId, nOrigin, nKBucket, mi, vv);
    }

    /** The "new" bucket that an entry goes back to when `nId` takes its place: its own, or if that
        is full the one that `nId` came from. */
    function HomeOf(info: Info, vv: seq<set<nat>>, nId: nat, nOrigin: nat): nat {
      var b := GetNewBucket(info.addr.ip, info.source);
      if b < |vv| && |vv[b] - {nId}| >= NEW_BUCKET_SIZE then nOrigin else b
    }

    /** MakeTried, last part: replace an entry of a full tried bucket. */
    method Evict(nId: nat, nOrigin: nat, nKBucket: nat, ghost mi: Infos, ghost vv: seq<set<nat>>)
      requires AllOk(GetTriedBucket, mi, vRandom, mapAddr, vv, vvTried, nIdCount, nNew + 1, nTried, -1)
      requires nId in mi && !mi[nId].fInTried && mi[nId].nLastSuccess != 0 && nOrigin < |vv| && nId in vv[nOrigin]
      requires nKBucket == GetTriedBucket(mi[nId].addr) && |vvTried[nKBucket]| >= TRIED_BUCKET_SIZE
      requires mapInfo == mi[nId := mi[nId].(nRefCount := 0)]
      requires |vvNew| == |vv| && forall b | 0 <= b < |vv| :: vvNew[b] == vv[b] - {nId}
      modifies this`mapInfo, this`vvNew, this`vvTried, this`nNew
      ensures Valid() && mapInfo.Keys == mi.Keys && mapInfo[nId] == mi[nId].(nRefCount := 0, fInTried := true)
      ensures exists out: nat :: out in old(vvTried)[nKBucket] && out in mi && FromDraws(mi, old(vvTried)[nKBucket], out) &&
                Evicted(mi, mapInfo, vv, vvNew, old(vvTried), vvTried, nKBucket, nId, out, HomeOf(mi[out], vv, nId, nOrigin))
    {
      hide RandomOk, AddrOk, NewOk, TriedOk, CountsOk, InfosOk, Distinct, Evicted, Put, Shuffled, FromDraws, Oldest;
      BucketCounts(GetTriedBucket, mi, vv, vvTried, -1);
      KindsKept(GetTriedBucket, mi, mapInfo, vvTried, nNew + 1, nTried);
      var nPos, places, best := SelectTried(nKBucket);
      OutOf(mapInfo, mi, old(vvTried)[nKBucket], places, best);
      ghost var vt := vvTried;
      KindsKept(GetTriedBucket, mapInfo, mi, vt, nNew + 1, nTried);
      var out := vvTried[nKBucket][nPos];
      TriedMember(GetTriedBucket, mi, vt, nKBucket, out, nIdCount);
      SameMembers(vt[nKBucket], old(vvTried)[nKBucket]);
      assert mapInfo[out].addr == mi[out].addr && mapInfo[out].source == mi[out].source;
      var nUBucket := GetNewBucket(mapInfo[out].addr.ip, mapInfo[out].source);
      var b := nUBucket;
      if |vvNew[nUBucket]| >= NEW_BUCKET_SIZE {
        b := nOrigin;
      }
      assert |vvNew[nOrigin]| == |vv[nOrigin]| - 1;
      TakePlace(nId, nKBucket, nPos, b, mi, vv, old(vvTried));
      EvictedKeys(mi, mapInfo, vv, vvNew, old(vvTried), vvTried, nKBucket, nId, out, b);
    }

    /** The exchange itself, once bucket `b` is chosen. */
    method TakePlace(nId: nat, nKBucket: nat, nPos: nat, b: nat, ghost mi: Infos, ghost vv: seq<set<nat>>, ghost before: seq<seq<nat>>)
      requires AllOk(GetTriedBucket, mi, vRandom, mapAddr, vv, vvTried, nIdCount, nNew + 1, nTried, -1)
      requires nId in mi && !mi[nId].fInTried && mi[nId].nLastSuccess != 0 && nKBucket == GetTriedBucket(mi[nId].addr)
      requires mapInfo == mi[nId := mi[nId].(nRefCount := 0)]
      requires |vvNew| == |vv| && forall b | 0 <= b < |vv| :: vvNew[b] == vv[b] - {nId}
      requires b < |vvNew| && |vvNew[b]| < NEW_BUCKET_SIZE && nKBucket < |vvTried| && nPos < |vvTried[nKBucket]|
      requires |before| == |vvTried| && vvTried == before[nKBucket := vvTried[nKBucket]]
      requires multiset(vvTried[nKBucket]) == multiset(before[nKBucket])
      modifies this`mapInfo, this`vvNew, this`vvTried, this`nNew
      ensures Valid()
      ensures Evicted(mi, mapInfo, vv, vvNew, before, vvTried, nKBucket, nId, old(vvTried)[nKBucket][nPos], b)
    {
      hide RandomOk, AddrOk, NewOk, TriedOk, CountsOk, InfosOk, Distinct, Evicted;
      ghost var vt := vvTried;
      var out := vvTried[nKBucket][nPos];
      Replaces(GetTriedBucket, mi, vRandom, mapAddr, vv, vt, nIdCount, nNew + 1, nTried, nId, mi[nId].(nRefCount := 0, fInTried := true), vvNew, nPos, b);
      EvictedHolds(mi, vv, vvNew, before, vt, nKBucket, nId, nPos, b);
      mapInfo := mapInfo[out := mapInfo[out].(fInTried := false, nRefCount := 1)];
      vvNew := vvNew[b := vvNew[b] + {out}];
      nNew := nNew + 1;
      vvTried := vvTried[nKBucket := Put(vvTried[nKBucket], nPos, nId)];
      mapInfo := mapInfo[nId := mapInfo[nId].(fInTried := true)];
      assert mapInfo == mi[out := mi[out].(nRefCount := 1, fInTried := false)][nId := mi[nId].(nRefCount := 0, fInTried := true)];
    }

    /** Good_: note a success, and make the entry tried if it is not. */
    method Good_(addr: Service, nTime: int)
      requires Valid() && nTime > 0
      modifies this`mapInfo, this`vvNew, this`vvTried, this`nNew, this`nTried
      ensures Valid() && mapInfo.Keys == old(mapInfo).Keys
      ensures if addr.ip in mapAddr && old(mapInfo)[mapAddr[addr.ip]].addr == addr then
                var info := mapInfo[mapAddr[addr.ip]];
                info.fInTried && info.addr == addr && info.nLastSuccess == info.nLastTry == info.nTime == nTime && info.nAttempts == 0
              else mapInfo == old(mapInfo) && vvNew == old(vvNew) && vvTried == old(vvTried)
    {
      hide RandomOk, TriedOk, CountsOk, NewOk, InfosOk;
      var found, nId := Find(addr.ip);
      if !found || mapInfo[nId].addr != addr {
        return;
      }
      KnownInfo(mapInfo, nIdCount, nId);
      var info := mapInfo[nId].(nLastSuccess := nTime, nLastTry := nTime, nTime := nTime, nAttempts := 0);
      EntryTouched(GetTriedBucket, mapInfo, vRandom, mapAddr, vvNew, vvTried, nIdCount, nNew, nTried, nId, info, -1);
      mapInfo := mapInfo[nId := info];
      if info.fInTried {
        return;
      }
      var nUBucket := FindBucket(nId);
      MakeTried(nId, nUBucket);
    }

    /** Good_: a bucket that a new entry is in, looked for from a random one on. */
    method FindBucket(nId: nat) returns (nUBucket: nat)
      requires Valid() && nId in mapInfo && !mapInfo[nId].fInTried
      ensures nUBucket < NEW_BUCKET_COUNT && nId in vvNew[nUBucket]
    {
      hide RandomOk, AddrOk, TriedOk, CountsOk, InfosOk, NewOk, Steps;
      SomewhereNew(mapInfo, vvNew, nIdCount, nId);
      var nRnd := GetRandInt(|vvNew|);
      nUBucket := nRnd;
      var n := 0;
      while n < |vvNew| && nId !in vvNew[(n + nRnd) % |vvNew|]
        invariant n <= |vvNew| && forall b: nat | b < |vvNew| && nId in vvNew[b] :: Steps(nRnd, b) >= n
      {
        AfterSteps(nRnd, n);
        n := n + 1;
      }
      ghost var b: nat :| b < |vvNew| && nId in vvNew[b];
      assert Steps(nRnd, b) < NEW_BUCKET_COUNT;
      nUBucket := (n + nRnd) % |vvNew|;
    }

    static lemma SomewhereNew(mi: Infos, vv: seq<set<nat>>, nIdCount: nat, n: nat)
      requires NewOk(mi, vv, -1) && InfosOk(mi, nIdCount) && n in mi && !mi[n].fInTried
      ensures |vv| == NEW_BUCKET_COUNT && exists b: nat :: b < |vv| && n in vv[b]
    {
      KnownInfo(mi, nIdCount, n);
      CountPositive(vv, n);
    }

    static lemma AfterSteps(from: nat, n: nat)
      requires from < NEW_BUCKET_COUNT && n < NEW_BUCKET_COUNT
      ensures forall b: nat | b < NEW_BUCKET_COUNT && Steps(from, b) == n :: b == (n + from) % NEW_BUCKET_COUNT
    {
    }

    /** How many steps after `from` bucket `b` is reached. */
    static ghost function Steps(from: nat, b: nat): (n: nat)
      requires from < NEW_BUCKET_COUNT && b < NEW_BUCKET_COUNT
      ensures n < NEW_BUCKET_COUNT
    {
      if b >= from then b - from else b + NEW_BUCKET_COUNT - from
    }

    method Attempt_(addr: Service, nTime: int)
      requires Valid() && nTime >= 0
      modifies this`mapInfo
      ensures Valid()
      ensures if addr.ip in mapAddr && old(mapInfo)[mapAddr[addr.ip]].addr == addr then
                var nId := mapAddr[addr.ip]; var info := old(mapInfo)[nId];
                mapInfo == old(mapInfo)[nId := info.(nLastTry := nTime, nAttempts := info.nAttempts + 1)]
              else mapInfo == old(mapInfo)
    {
      hide RandomOk, TriedOk, CountsOk, NewOk, InfosOk;
      var found, nId := Find(addr.ip);
      if !found || mapInfo[nId].addr != addr {
        return;
      }
      KnownInfo(mapInfo, nIdCount, nId);
      var info := mapInfo[nId].(nLastTry := nTime, nAttempts := mapInfo[nId].nAttempts + 1);
      EntryTouched(GetTriedBucket, mapInfo, vRandom, mapAddr, vvNew, vvTried, nIdCount, nNew, nTried, nId, info, -1);
      mapInfo := mapInfo[nId := info];
    }

    method Connected_(addr: Service, nTime: int)
      requires Valid()
      modifies this`mapInfo
      ensures Valid()
      ensures if addr.ip in mapAddr && old(mapInfo)[mapAddr[addr.ip]].addr == addr && nTime - old(mapInfo)[mapAddr[addr.ip]].nTime > 20 * 60 then
                mapInfo == old(mapInfo)[mapAddr[addr.ip] := old(mapInfo)[mapAddr[addr.ip]].(nTime := nTime)]
              else mapInfo == old(mapInfo)
    {
      hide RandomOk, TriedOk, CountsOk, NewOk, InfosOk;
      var found, nId := Find(addr.ip);
      if !found || mapInfo[nId].addr != addr {
        return;
      }
      if nTime - mapInfo[nId].nTime > 20 * 60 {
        KnownInfo(mapInfo, nIdCount, nId);
        var info := mapInfo[nId].(nTime := nTime);
        EntryTouched(GetTriedBucket, mapInfo, vRandom, mapAddr, vvNew, vvTried, nIdCount, nNew, nTried, nId, info, -1);
        mapInfo := mapInfo[nId := info];
      }
    }

    /** GetAddr_: shuffle part of vRandom to the front and return those entries. */
    method GetAddr_() returns (vAddr: seq<Service>)
      requires Valid()
      modifies this`mapInfo, this`vRandom
      ensures Valid() && mapInfo.Keys == old(mapInfo).Keys
      ensures forall n | n in mapInfo :: mapInfo[n] == old(mapInfo)[n].(nRandomPos := mapInfo[n].nRandomPos)
      ensures |vAddr| == if 23 * |mapInfo| / 100 > 2500 then 2500 else 23 * |mapInfo| / 100
      ensures forall i | 0 <= i < |vAddr| :: vAddr[i].ip in mapAddr && mapInfo[mapAddr[vAddr[i].ip]].addr == vAddr[i]
      ensures forall i, j | 0 <= i < j < |vAddr| :: vAddr[i].ip != vAddr[j].ip
    {
      hide RandomOk, AddrOk, TriedOk, CountsOk, NewOk, InfosOk;
      OnePositionEach(mapInfo, vRandom);
      ghost var mi := mapInfo;
      var nNodes := 23 * |vRandom| / 100;
      if nNodes > 2500 {
        nNodes := 2500;
      }
      vAddr := [];
      for n := 0 to nNodes
        invariant Valid() && mapInfo.Keys == mi.Keys && Moved(mi, mapInfo) && |vRandom| == |mi|
        invariant |vAddr| == n && forall i | 0 <= i < n :: vRandom[i] in mi && vAddr[i] == mi[vRandom[i]].addr
      {
        ShuffleOne(n);
        vAddr := vAddr + [mapInfo[vRandom[n]].addr];
      }
      Listed(mapInfo, vRandom, mapAddr, vAddr);
    }

    /** One step of the shuffle in GetAddr_: position `n` gets any entry from there on. */
    method ShuffleOne(n: nat)
      requires Valid() && n < |vRandom|
      modifies this`mapInfo, this`vRandom
      ensures Valid() && mapInfo.Keys == old(mapInfo).Keys && Moved(old(mapInfo), mapInfo)
      ensures |vRandom| == |old(vRandom)| && vRandom[..n] == old(vRandom)[..n] && vRandom[n] in mapInfo
    {
      hide AddrOk, TriedOk, CountsOk, NewOk, InfosOk;
      var draw := GetRandInt(|vRandom| - n);
      SwapRandom(n, draw + n);
      MovedKept(GetTriedBucket, old(mapInfo), mapInfo, mapAddr, vvNew, vvTried, nIdCount, nNew, nTried);
    }

    // ----- writing to disk

    /** The new entries in order, and the number each gets. */
    method SaveNew() returns (news: seq<Saved>, mapUnkIds: map<nat, nat>, ghost newIds: seq<nat>)
      requires Valid()
      ensures Lists(newIds, NewIds(mapInfo)) && |news| == |newIds| == nNew
      ensures forall i | 0 <= i < |newIds| :: newIds[i] in mapInfo && news[i] == Save(mapInfo[newIds[i]])
      ensures forall i | 0 <= i < |newIds| :: newIds[i] in mapUnkIds && mapUnkIds[newIds[i]] == i
    {
      hide RandomOk, AddrOk, NewOk, TriedOk;
      news, mapUnkIds, newIds := [], map[], [];
      var nIds, id := 0, 0;
      while id < nIdCount
        invariant id <= nIdCount && nIds == |news| == |newIds| && Distinct(newIds)
        invariant forall n :: n in newIds <==> n in NewIds(mapInfo) && n < id
        invariant forall i | 0 <= i < |newIds| :: newIds[i] < id && newIds[i] in mapInfo && news[i] == Save(mapInfo[newIds[i]])
        invariant forall i | 0 <= i < |newIds| :: newIds[i] in mapUnkIds && mapUnkIds[newIds[i]] == i
      {
        if id in mapInfo {
          if nIds == nNew {
            break;
          }
          mapUnkIds := mapUnkIds[id := nIds];
          if mapInfo[id].nRefCount != 0 {
            news, newIds := news + [Save(mapInfo[id])], newIds + [id];
            nIds := nIds + 1;
          }
        }
        id := id + 1;
      }
      AllFound(newIds, NewIds(mapInfo));
    }

    /** The tried entries in order. */
    method SaveTried() returns (trieds: seq<Saved>, ghost triedIds: seq<nat>)
      requires Valid()
      ensures Lists(triedIds, TriedIds(mapInfo)) && |trieds| == |triedIds| == nTried
      ensures forall i | 0 <= i < |triedIds| :: triedIds[i] in mapInfo && trieds[i] == Save(mapInfo[triedIds[i]])
    {
      hide RandomOk, AddrOk, NewOk, TriedOk;
      trieds, triedIds := [], [];
      var nIds, id := 0, 0;
      while id < nIdCount
        invariant id <= nIdCount && nIds == |trieds| == |triedIds| && Distinct(triedIds)
        invariant forall n :: n in triedIds <==> n in TriedIds(mapInfo) && n < id
        invariant forall i | 0 <= i < |triedIds| :: triedIds[i] < id && triedIds[i] in mapInfo && trieds[i] == Save(mapInfo[triedIds[i]])
      {
        if id in mapInfo {
          if nIds == nTried {
            break;
          }
          if mapInfo[id].fInTried {
            trieds, triedIds := trieds + [Save(mapInfo[id])], triedIds + [id];
            nIds := nIds + 1;
          }
        }
        id := id + 1;
      }
      AllFound(triedIds, TriedIds(mapInfo));
    }

    /** One bucket, by the numbers of its entries. */
    static method SaveBucket(vNew: set<nat>, mapUnkIds: map<nat, nat>, ghost newIds: seq<nat>) returns (bucket: seq<nat>)
      requires Distinct(newIds) && forall n | n in vNew :: n in newIds
      requires forall i | 0 <= i < |newIds| :: newIds[i] in mapUnkIds && mapUnkIds[newIds[i]] == i
      ensures StoresBucket(bucket, vNew, newIds)
    {
      bucket := [];
      var rest := vNew;
      while rest != {}
        invariant rest <= vNew
        invariant StoresBucket(bucket, vNew - rest, newIds)
        decreases |rest|
      {
        var n := First(rest);
        ghost var i :| 0 <= i < |newIds| && newIds[i] == n;
        bucket := bucket + [mapUnkIds[n]];
        assert vNew - (rest - {n}) == (vNew - rest) + {n};
        rest := rest - {n};
      }
      assert vNew - rest == vNew;
    }

    method Serialize() returns (file: AddrFile)
      requires Valid()
      ensures exists newIds, triedIds :: Written(mapInfo, vvNew, nNew, nTried, file, newIds, triedIds)
    {
      hide RandomOk, AddrOk, TriedOk, CountsOk, Distinct, StoresBucket;
      var news, mapUnkIds, newIds := SaveNew();
      var trieds, triedIds := SaveTried();
      var buckets := [];
      for b := 0 to |vvNew|
        invariant |buckets| == b && forall c | 0 <= c < b :: StoresBucket(buckets[c], vvNew[c], newIds)
      {
        forall n | n in vvNew[b] ensures n in newIds {
          InBucket(mapInfo, vvNew, -1, nIdCount, b, n);
        }
        var bucket := SaveBucket(vvNew[b], mapUnkIds, newIds);
        buckets := buckets + [bucket];
      }
      file := AddrFile(nNew, nTried, NEW_BUCKET_COUNT, news, trieds, buckets);
      assert Written(mapInfo, vvNew, nNew, nTried, file, newIds, triedIds);
    }

    // ----- reading from disk

    /** Read the new entries: number `n` gets id `n`. */
    method ReadNew(file: AddrFile, ghost t: Tables, ghost ids: seq<nat>)
      requires AddrOk(t.mi, t.ma) && FileOf(t, file, ids, |file.news|)
      requires mapInfo == map[] && mapAddr == map[] && vRandom == []
      modifies this`mapInfo, this`mapAddr, this`vRandom
      ensures ReadInfos(t.mi, ids, |file.news|, mapInfo) && ReadAddrs(t.mi, ids, |file.news|, mapAddr)
      ensures vRandom == Straight(|file.news|)
    {
      hide AddrOk, ReadInfos, ReadAddrs, Lists;
      NothingRead(t.mi, ids);
      for n := 0 to |file.news|
        invariant ReadInfos(t.mi, ids, n, mapInfo) && ReadAddrs(t.mi, ids, n, mapAddr)
        invariant vRandom == Straight(n)
      {
        ReadOneMore(t.mi, t.ma, ids, n, mapInfo, mapAddr);
        SavedLoads(t.mi[ids[n]], n);
        var info := Load(file.news[n]);
        info := info.(nRandomPos := |vRandom|);
        mapInfo := mapInfo[n := info];
        mapAddr := mapAddr[info.addr.ip := n];
        vRandom := vRandom + [n];
      }
    }

    static lemma NothingRead(mi: Infos, ids: seq<nat>)
      ensures ReadInfos(mi, ids, 0, map[]) && ReadAddrs(mi, ids, 0, map[])
    {
    }

    /** Read the tried entries: they get the ids that follow, and their buckets. */
    method ReadTriedEntries(file: AddrFile, ghost t: Tables, ghost ids: seq<nat>) returns (nLost: int)
      requires AddrOk(t.mi, t.ma) && TriedOk(GetTriedBucket, t.mi, t.vt) && FileOf(t, file, ids, |file.news|)
      requires ReadInfos(t.mi, ids, |file.news|, mapInfo) && ReadAddrs(t.mi, ids, |file.news|, mapAddr)
      requires vRandom == Straight(|file.news|) && nIdCount == |file.news| && vvTried == EmptyTried()
      modifies this`mapInfo, this`mapAddr, this`vRandom, this`vvTried, this`nIdCount
      ensures nLost == 0 && nIdCount == |ids| && vRandom == Straight(|ids|)
      ensures ReadInfos(t.mi, ids, |ids|, mapInfo) && ReadAddrs(t.mi, ids, |ids|, mapAddr)
      ensures RenumberedTried(t.vt, ids, vvTried)
    {
      hide AddrOk, TriedOk, ReadInfos, ReadAddrs, ReadTried, Lists, RenumberedTried;
      NoneTried(GetTriedBucket, t.mi, ids, |file.news|);
      nLost := 0;
      for j := 0 to |file.trieds|
        invariant nIdCount == |file.news| + j && nLost == 0 && vRandom == Straight(nIdCount)
        invariant ReadInfos(t.mi, ids, nIdCount, mapInfo) && ReadAddrs(t.mi, ids, nIdCount, mapAddr)
        invariant ReadTried(GetTriedBucket, t.mi, ids, |file.news|, nIdCount, vvTried)
      {
        ReadOneMore(t.mi, t.ma, ids, nIdCount, mapInfo, mapAddr);
        RoomForNext(GetTriedBucket, t.mi, t.vt, ids, |file.news|, nIdCount, vvTried);
        ReadTriedOneMore(GetTriedBucket, t.mi, ids, |file.news|, nIdCount, vvTried);
        SavedLoads(t.mi[ids[nIdCount]], nIdCount);
        var info := Load(file.trieds[j]);
        var k := GetTriedBucket(info.addr);
        if |vvTried[k]| < TRIED_BUCKET_SIZE {
          info := info.(nRandomPos := |vRandom|, fInTried := true);
          vRandom := vRandom + [nIdCount];
          mapInfo := mapInfo[nIdCount := info];
          mapAddr := mapAddr[info.addr.ip := nIdCount];
          vvTried := vvTried[k := vvTried[k] + [nIdCount]];
          nIdCount := nIdCount + 1;
        } else {
          nLost := nLost + 1;
        }
      }
      AllTriedRead(GetTriedBucket, t.mi, t.vt, ids, |file.news|, vvTried);
    }

    static lemma NoneTried(bucketOf: Service -> nat, mi: Infos, ids: seq<nat>, lo: nat)
      requires lo <= |ids|
      ensures ReadTried(bucketOf, mi, ids, lo, lo, EmptyTried())
    {
    }

    /** Read the "new" buckets: an entry is put in a bucket while it is in fewer than four. */
    method ReadBuckets(file: AddrFile, ghost t: Tables, ghost ids: seq<nat>)
      requires NewOk(t.mi, t.vv, -1) && InfosOk(t.mi, t.nIdCount) && RenumberedNew(t.vv, ids, FileBuckets(file))
      requires file.nUBuckets == |file.buckets| == NEW_BUCKET_COUNT && forall b | 0 <= b < |file.buckets| :: Distinct(file.buckets[b])
      requires ReadInfos(t.mi, ids, |ids|, mapInfo) && vvNew == EmptyNew()
      modifies this`mapInfo, this`vvNew
      ensures vvNew == FileBuckets(file) && Counted(t.mi, ids, vvNew, mapInfo)
    {
      hide NewOk, InfosOk, ReadInfos, RenumberedNew, Counted, Distinct;
      NoneCounted(t.mi, ids, mapInfo);
      for b := 0 to file.nUBuckets
        invariant Counted(t.mi, ids, vvNew, mapInfo) && |vvNew| == |file.buckets|
        invariant forall c | 0 <= c < b :: vvNew[c] == Members(file.buckets[c])
        invariant forall c | b <= c < |vvNew| :: vvNew[c] == {}
      {
        for n := 0 to |file.buckets[b]|
          invariant Counted(t.mi, ids, vvNew, mapInfo) && ReadUpTo(file, b, n, vvNew)
        {
          CountedOneMore(t.mi, t.vv, ids, t.nIdCount, file, b, n, vvNew, mapInfo);
          var nIndex := file.buckets[b][n];
          if file.nUBuckets == NEW_BUCKET_COUNT && mapInfo[nIndex].nRefCount < NEW_BUCKETS_PER_ADDRESS {
            mapInfo := mapInfo[nIndex := mapInfo[nIndex].(nRefCount := mapInfo[nIndex].nRefCount + 1)];
            vvNew := vvNew[b := vvNew[b] + {nIndex}];
          }
        }
        assert file.buckets[b][..|file.buckets[b]|] == file.buckets[b];
      }
    }

    /** Reading a file that holds the tables `t` gives them back, up to the numbers of the
        entries, the order in the tried buckets and of vRandom, and what the file leaves out;
        and whatever was in the tables before is gone. */
    method Unserialize(file: AddrFile, ghost t: Tables, ghost newIds: seq<nat>, ghost triedIds: seq<nat>)
      requires TablesOk(GetTriedBucket, t) && Written(t.mi, t.vv, t.nNew, t.nTried, file, newIds, triedIds)
      modifies this
      ensures Valid() && nNew == t.nNew && nTried == t.nTried
      ensures Lists(newIds + triedIds, t.mi.Keys) && mapInfo == RenumberedInfos(t.mi, newIds + triedIds)
      ensures RenumberedAddrs(t.mi, newIds + triedIds, mapAddr)
      ensures RenumberedNew(t.vv, newIds + triedIds, vvNew)
      ensures RenumberedTried(t.vt, newIds + triedIds, vvTried)
    {
      hide RandomOk, AddrOk, NewOk, TriedOk, CountsOk, InfosOk, Written, Lists, RenumberedNew, RenumberedTried, RenumberedAddrs,
           ReadInfos, ReadAddrs, Counted, Distinct;
      ghost var ids := newIds + triedIds;
      WrittenFile(GetTriedBucket, t, file, newIds, triedIds);
      WrittenBuckets(GetTriedBucket, t, file, newIds, triedIds);
      nNew, nTried := file.nNew, file.nTried;
      nIdCount, mapInfo, mapAddr, vRandom := 0, map[], map[], [];
      vvTried, vvNew := EmptyTried(), EmptyNew();
      ReadNew(file, t, ids);
      nIdCount := nNew;
      var nLost := ReadTriedEntries(file, t, ids);
      nTried := nTried - nLost;
      ReadBuckets(file, t, ids);
      AllCounted(t.mi, t.vv, ids, vvNew, mapInfo);
      SameAfterReading(t, newIds, triedIds, file, mapAddr, vvNew, vvTried);
    }

    lemma SameAfterReading(t: Tables, newIds: seq<nat>, triedIds: seq<nat>, file: AddrFile, ma': map<nat, nat>, vv': seq<set<nat>>, vt': seq<seq<nat>>)
      requires TablesOk(GetTriedBucket, t) && Written(t.mi, t.vv, t.nNew, t.nTried, file, newIds, triedIds)
      requires var ids := newIds + triedIds;
               ReadAddrs(t.mi, ids, |ids|, ma') && RenumberedNew(t.vv, ids, vv') && RenumberedTried(t.vt, ids, vt')
      ensures var ids := newIds + triedIds;
              && Lists(ids, t.mi.Keys) && RenumberedAddrs(t.mi, ids, ma')
              && AllOk(GetTriedBucket, RenumberedInfos(t.mi, ids), Straight(|ids|), ma', vv', vt', |ids|, t.nNew, t.nTried, -1)
    {
      hide RandomOk, AddrOk, NewOk, TriedOk, CountsOk, InfosOk, Lists, RenumberedNew, RenumberedTried;
      RenumberedOk(GetTriedBucket, t.mi, t.vr, t.ma, t.vv, t.vt, t.nIdCount, t.nNew, t.nTried, newIds, triedIds, ma', vv', vt');
    }
  }

  /** As many members as the set has are all of them. */
  lemma AllFound(ids: seq<nat>, s: set<nat>)
    requires Distinct(ids) && (forall n | n in ids :: n in s)
    ensures |ids| == |s| ==> Lists(ids, s)
    ensures (forall n | n in s :: n in ids) ==> |ids| == |s|
  {
    DistinctSize(ids);
    assert Members(ids) <= s && s == Members(ids) + (s - Members(ids));
  }

  /** Addresses read off the front of vRandom are known, and no two are the same. */
  lemma Listed(mi: Infos, vr: seq<nat>, ma: map<nat, nat>, vAddr: seq<Service>)
    requires RandomOk(mi, vr) && AddrOk(mi, ma) && |vAddr| <= |vr|
    requires forall i | 0 <= i < |vAddr| :: vr[i] in mi && vAddr[i] == mi[vr[i]].addr
    ensures forall i | 0 <= i < |vAddr| :: vAddr[i].ip in ma && mi[ma[vAddr[i].ip]].addr == vAddr[i]
    ensures forall i, j | 0 <= i < j < |vAddr| :: vAddr[i].ip != vAddr[j].ip
  {
    forall i, j | 0 <= i < j < |vAddr| ensures vAddr[i].ip != vAddr[j].ip {
      assert mi[vr[i]].nRandomPos == i && mi[vr[j]].nRandomPos == j;
    }
  }

  /** vRandom is as long as there are entries. */
  lemma {:induction false} OnePositionEach(mi: Infos, vr: seq<nat>)
    requires RandomOk(mi, vr)
    ensures |vr| == |mi|
  {
    ListsAll(mi.Keys, vr);
    assert |mi.Keys| == |mi|;
  }

  lemma {:induction false} ListsAll(s: set<nat>, vr: seq<nat>)
    requires forall n :: n in s <==> n in vr
    requires Distinct(vr)
    ensures |vr| == |s|
  {
    if vr == [] {
      assert s == {};
    } else {
      var k := |vr| - 1;
      ListsAll(s - {vr[k]}, vr[..k]);
    }
  }

  lemma EvictedHolds(mi: Infos, vv: seq<set<nat>>, erased: seq<set<nat>>, vt: seq<seq<nat>>, shuffled: seq<seq<nat>>, k: nat, id: nat, pos: nat, b: nat)
    requires id in mi && b < |vv| == |erased| && forall c | 0 <= c < |vv| :: erased[c] == vv[c] - {id}
    requires k < |vt| && |shuffled| == |vt| && pos < |shuffled[k]| && shuffled == vt[k := shuffled[k]]
    requires multiset(shuffled[k]) == multiset(vt[k])
    requires var out := shuffled[k][pos]; out in mi && mi[out].fInTried
    ensures var out := shuffled[k][pos];
            Evicted(mi, mi[out := mi[out].(nRefCount := 1, fInTried := false)][id := mi[id].(nRefCount := 0, fInTried := true)],
                    vv, erased[b := erased[b] + {out}], vt, shuffled[k := Put(shuffled[k], pos, id)], k, id, out, b)
  {
    PutMultiset(shuffled[k], pos, id);
  }

  /** `out` leaves tried bucket `k` and goes into "new" bucket `b`; `id` takes its place. */
  ghost predicate Evicted(mi: Infos, mi': Infos, vv: seq<set<nat>>, vv': seq<set<nat>>, vt: seq<seq<nat>>, vt': seq<seq<nat>>,
                          k: nat, id: nat, out: nat, b: nat)
  {
    && id in mi && out in mi && mi[out].fInTried && b < |vv| == |vv'| && k < |vt| == |vt'|
    && mi' == mi[out := mi[out].(nRefCount := 1, fInTried := false)][id := mi[id].(nRefCount := 0, fInTried := true)]
    && (forall c | 0 <= c < |vv| :: vv'[c] == if c == b then vv[c] - {id} + {out} else vv[c] - {id})
    && (forall c | 0 <= c < |vt| && c != k :: vt'[c] == vt[c])
    && multiset(vt'[k]) == multiset(vt[k]) - multiset{out} + multiset{id}
  }
}
