/** `TopofRacks` of topology.py: the LLDP view of which host hangs off
    which interface of which top-of-rack switch, and the per-switch pools
    of local VLAN ids together with the cache of ids already handed to a
    (switch, network) pair. */
module Topology {
  import opened Text
  import opened Faults
  import opened Bitmap
  import opened Lldp
  import opened LvTables

  /** The unshared pool is [2, 4000], the shared one [4002, 4094]; -1
      reports an exhausted pool. */
  const VlanVpcMin: nat := 2
  const VlanVpcMax: nat := 4000
  const VlanBaseMin: nat := 4002
  const VlanBaseMax: nat := 4094
  const NoAvaVlanId: int := -1

  function PoolMin(shared: bool): nat { if shared then VlanBaseMin else VlanVpcMin }
  function PoolMax(shared: bool): nat { if shared then VlanBaseMax else VlanVpcMax }

  /** The two pools of one switch. */
  datatype Pools = Pools(shared: LocalVlanBitmap, unshared: LocalVlanBitmap)

  /** What `_get_topology` records for one interface of a switch. */
  datatype IndexInfo = IndexInfo(indexName: string, torIp: string, tor: string, host: string,
                                 desc: string, hostIp: string, mac: string, iface: string)

  /** What `get_localvlan` returns: the id, the host's interface index and
      whether the id was allocated by this call. */
  datatype LocalVlan = LocalVlan(vlan: int, index: Option<int>, isNew: bool)

  /** `_get_cache_id(tor, net, shared)`: the switch and network followed by
      "-1" for a shared network and "-0" otherwise. */
  function CacheId(tor: string, net: string, shared: bool): (id: string)
    ensures StartsWith(id, tor + net) && |id| == |tor| + |net| + 2
  {
    tor + net + (if shared then "-1" else "-0")
  }

  /** The two keys of one (switch, network) pair share the prefix and
      differ in the last character only, so the flag is recoverable. */
  lemma CacheIdSuffix(tor: string, net: string, s1: bool, s2: bool)
    ensures CacheId(tor, net, s1)[..|tor| + |net|] == CacheId(tor, net, s2)[..|tor| + |net|]
    ensures CacheId(tor, net, s1)[..|tor| + |net| + 1] == tor + net + "-"
    ensures CacheId(tor, net, s1)[|tor| + |net| + 1] == if s1 then '1' else '0'
    ensures CacheId(tor, net, s1) == CacheId(tor, net, s2) <==> s1 == s2
  {
    var p := tor + net;
    assert CacheId(tor, net, s1) == p + (if s1 then "-1" else "-0");
    assert CacheId(tor, net, s2) == p + (if s2 then "-1" else "-0");
    if s1 != s2 {
      assert CacheId(tor, net, s1)[|p| + 1] != CacheId(tor, net, s2)[|p| + 1];
    }
  }

  /** The entry `_get_topology` writes for interface `index`, or `None`
      for the KeyError raised when the local port name, the system name or
      a field of the neighbour is missing. */
  function IndexEntry(t: string, local: Local, rec: Remote, index: int): (e: Option<IndexInfo>)
    ensures e.Some? <==> index in local.indexs && local.sysname.Some? && rec.hostname.Some? &&
                         rec.hostdesc.Some? && rec.ip.Some? && rec.mac.Some? && rec.desc.Some?
    ensures e.Some? ==> e.value.torIp == t && e.value.indexName == local.indexs[index] &&
                        e.value.host == rec.hostname.value
  {
    if index in local.indexs && local.sysname.Some? && rec.hostname.Some? && rec.hostdesc.Some? &&
       rec.ip.Some? && rec.mac.Some? && rec.desc.Some?
    then Some(IndexInfo(local.indexs[index], t, local.sysname.value, rec.hostname.value,
                        rec.hostdesc.value, rec.ip.value, rec.mac.value, rec.desc.value))
    else None
  }

  /** Every neighbour of switch `t` yields an entry. */
  predicate TorComplete(t: string, execute: Execute)
  {
    var remote := RemoteData(t, execute);
    forall i :: i in remote ==> IndexEntry(t, LocalData(t, execute), remote[i], i).Some?
  }

  /** Some element of a non-empty set: the next key of a dictionary walk,
      whose order the model leaves open. */
  method Any<T>(s: set<T>) returns (x: T)
    requires s != {}
    ensures x in s
  {
    x :| x in s;
  }

  /** `_get_index` on one switch: an interface whose neighbour is `host`. */
  method FindHost(infos: map<int, IndexInfo>, host: string) returns (index: Option<int>)
    ensures index.Some? ==> index.value in infos && infos[index.value].host == host
    ensures index.None? <==> forall i :: i in infos ==> infos[i].host != host
  {
    var left := infos.Keys;
    while left != {}
      invariant left <= infos.Keys
      invariant forall i :: i in infos && i !in left ==> infos[i].host != host
      decreases left
    {
      var i := Any(left);
      if infos[i].host == host {
        return Some(i);
      }
      left := left - {i};
    }
    index := None;
  }

  /** `m` holds the entry of each neighbour in `done`. */
  ghost predicate Entries(t: string, local: Local, remote: map<int, Remote>, done: set<int>,
                          m: map<int, IndexInfo>)
  {
    done <= remote.Keys && m.Keys == done &&
    forall i :: i in done ==> IndexEntry(t, local, remote[i], i) == Some(m[i])
  }

  /** `order` lists the indices `done`, each of them once. */
  ghost predicate Orders(order: seq<int>, done: set<int>)
  {
    (forall k :: 0 <= k < |order| ==> order[k] in done) &&
    (forall i :: i in done ==> i in order) &&
    (forall a, b :: 0 <= a < b < |order| ==> order[a] != order[b])
  }

  /** The host list `sp` holds, position by position, the host of the
      entry of the index at the same position of `order`. */
  ghost predicate HostsInOrder(m: map<int, IndexInfo>, order: seq<int>, sp: seq<string>)
  {
    |sp| == |order| && forall k :: 0 <= k < |order| ==> order[k] in m && sp[k] == m[order[k]].host
  }

  /** The entries `m` and host list `sp` record the neighbours `done` of
      switch `t`, visited in the order `order`: one entry per neighbour, and
      one host name per neighbour in visiting order. */
  ghost predicate Partial(t: string, local: Local, remote: map<int, Remote>, done: set<int>,
                          order: seq<int>, m: map<int, IndexInfo>, sp: seq<string>)
  {
    Entries(t, local, remote, done, m) && Orders(order, done) && HostsInOrder(m, order, sp)
  }

  /** The entries and host list record every neighbour of switch `t`, the
      host list in some order of visiting the neighbours. */
  ghost predicate Describes(t: string, local: Local, remote: map<int, Remote>,
                            m: map<int, IndexInfo>, sp: seq<string>)
  {
    exists order :: Partial(t, local, remote, remote.Keys, order, m, sp)
  }

  lemma EntriesStep(t: string, local: Local, remote: map<int, Remote>, done: set<int>,
                    m: map<int, IndexInfo>, i: int, e: IndexInfo)
    requires Entries(t, local, remote, done, m)
    requires i in remote && i !in done && IndexEntry(t, local, remote[i], i) == Some(e)
    ensures Entries(t, local, remote, done + {i}, m[i := e])
  {
    forall j | j in done + {i}
      ensures IndexEntry(t, local, remote[j], j) == Some(m[i := e][j])
    {
      if j != i {
        assert m[i := e][j] == m[j];
      }
    }
  }

  /** Visiting a new index extends the enumeration by that index. */
  lemma OrdersStep(order: seq<int>, done: set<int>, i: int)
    requires Orders(order, done) && i !in done
    ensures Orders(order + [i], done + {i})
  {
    var o := order + [i];
    forall j | j in done + {i}
      ensures j in o
    {
      if j == i {
        assert o[|order|] == i;
      } else {
        var k :| 0 <= k < |order| && order[k] == j;
        assert o[k] == j;
      }
    }
    forall a, b | 0 <= a < b < |o|
      ensures o[a] != o[b]
    {
      if b == |order| {
        assert o[a] == order[a] && order[a] in done;
      } else {
        assert o[a] == order[a] && o[b] == order[b];
      }
    }
  }

  /** Appending the host of a new index keeps the host list in step with
      the visiting order. */
  lemma HostsStep(m: map<int, IndexInfo>, order: seq<int>, sp: seq<string>, i: int, e: IndexInfo)
    requires HostsInOrder(m, order, sp) && i !in order
    ensures HostsInOrder(m[i := e], order + [i], sp + [e.host])
  {
    var m', o, sp' := m[i := e], order + [i], sp + [e.host];
    forall k | 0 <= k < |o|
      ensures o[k] in m' && sp'[k] == m'[o[k]].host
    {
      if k < |order| {
        assert o[k] == order[k] && sp'[k] == sp[k] && order[k] != i;
      }
    }
  }

  /** An enumeration without repeats is as long as the set it lists. */
  lemma {:induction false} OrdersSize(order: seq<int>, done: set<int>)
    requires Orders(order, done)
    ensures |order| == |done|
    decreases |order|
  {
    if order == [] {
      assert forall i :: i in done ==> false;
      assert done == {};
    } else {
      var n := |order| - 1;
      var last, init := order[n], order[..n];
      forall i | i in done - {last}
        ensures i in init
      {
        var k :| 0 <= k < |order| && order[k] == i;
        assert init[k] == i;
      }
      forall a, b | 0 <= a < b < |init|
        ensures init[a] != init[b]
      {
        assert init[a] == order[a] && init[b] == order[b];
      }
      forall k | 0 <= k < |init|
        ensures init[k] in done - {last}
      {
        assert init[k] == order[k] && order[k] != order[n];
      }
      OrdersSize(init, done - {last});
    }
  }

  /** A described switch has one host name per neighbour index, and the
      host of each neighbour is on the list. */
  lemma DescribesHosts(t: string, local: Local, remote: map<int, Remote>,
                       m: map<int, IndexInfo>, sp: seq<string>)
    requires Describes(t, local, remote, m, sp)
    ensures |sp| == |remote.Keys| && m.Keys == remote.Keys
    ensures forall i :: i in remote ==> m[i].host in sp
  {
    var order :| Partial(t, local, remote, remote.Keys, order, m, sp);
    OrdersSize(order, remote.Keys);
    forall i | i in remote
      ensures m[i].host in sp
    {
      var k :| 0 <= k < |order| && order[k] == i;
      assert sp[k] == m[i].host;
    }
  }

  /** Recording one more neighbour keeps `Partial`; `left` are the
      neighbours still to do. */
  lemma PartialStep(t: string, local: Local, remote: map<int, Remote>, left: set<int>,
                    order: seq<int>, m: map<int, IndexInfo>, sp: seq<string>, i: int)
    requires left <= remote.Keys && Partial(t, local, remote, remote.Keys - left, order, m, sp)
    requires i in left && IndexEntry(t, local, remote[i], i).Some?
    ensures var e := IndexEntry(t, local, remote[i], i).value;
      Partial(t, local, remote, remote.Keys - (left - {i}), order + [i], m[i := e], sp + [e.host])
  {
    var e := IndexEntry(t, local, remote[i], i).value;
    var done := remote.Keys - left;
    assert remote.Keys - (left - {i}) == done + {i};
    EntriesStep(t, local, remote, done, m, i, e);
    OrdersStep(order, done, i);
    HostsStep(m, order, sp, i, e);
  }

  /** The inner loop of `_get_topology` for switch `t`: the entries and the
      host list it builds, and whether it stopped on a KeyError (the entries
      built so far are then what the source leaves behind). */
  method BuildTor(t: string, local: Local, remote: map<int, Remote>)
    returns (m: map<int, IndexInfo>, sp: seq<string>, r: Result<()>)
    ensures r.Err? ==> r == Err(KeyError) && exists i :: i in remote && IndexEntry(t, local, remote[i], i).None?
    ensures r.Ok? ==> Describes(t, local, remote, m, sp)
  {
    m, sp := map[], [];
    ghost var order: seq<int> := [];
    var left := remote.Keys;
    while left != {}
      invariant left <= remote.Keys
      invariant Partial(t, local, remote, remote.Keys - left, order, m, sp)
      decreases left
    {
      var i := Any(left);
      var e := IndexEntry(t, local, remote[i], i);
      if e.None? {
        return m, sp, Err(KeyError);
      }
      PartialStep(t, local, remote, left, order, m, sp, i);
      m := m[i := e.value];
      sp := sp + [e.value.host];
      order := order + [i];
      left := left - {i};
    }
    assert remote.Keys - left == remote.Keys;
    r := Ok(());
  }

  /** Switch `t` is recorded in the maps as its walks describe it. */
  ghost predicate Recorded(topology: map<string, map<int, IndexInfo>>, topologySp: map<string, seq<string>>,
                           t: string, execute: Execute)
  {
    t in topology && t in topologySp &&
    Describes(t, LocalData(t, execute), RemoteData(t, execute), topology[t], topologySp[t])
  }

  /** Rewriting the record of another switch keeps the record of `u`. */
  lemma RecordedFrame(topology: map<string, map<int, IndexInfo>>, topologySp: map<string, seq<string>>,
                      t: string, m: map<int, IndexInfo>, sp: seq<string>, u: string, execute: Execute)
    requires u != t && Recorded(topology, topologySp, u, execute)
    ensures Recorded(topology[t := m], topologySp[t := sp], u, execute)
  {
    assert topology[t := m][u] == topology[u];
    assert topologySp[t := sp][u] == topologySp[u];
  }

  /** Every switch of `tors` yields a complete topology. */
  predicate TopologyOk(tors: seq<string>, execute: Execute)
  {
    forall j :: 0 <= j < |tors| ==> TorComplete(tors[j], execute)
  }

  /** The cache key of a persisted allocation. */
  function AllocationKey(va: VlanAllocation): string
  {
    CacheId(va.torIp, va.networkId, va.shared)
  }

  /** The cache after the allocations `vas` are entered in order. */
  function CacheFold(cache: map<string, nat>, vas: seq<VlanAllocation>): map<string, nat>
    decreases |vas|
  {
    if |vas| == 0 then cache
    else CacheFold(cache, vas[..|vas| - 1])[AllocationKey(vas[|vas| - 1]) := vas[|vas| - 1].vlanId]
  }

  /** The entered cache holds a key exactly when it was there before or
      some allocation has it, and the value of an allocation's key is the
      id of the last allocation with that key. */
  lemma {:induction false} CacheFoldSpec(cache: map<string, nat>, vas: seq<VlanAllocation>, k: string)
    ensures k in CacheFold(cache, vas) <==> k in cache || exists j :: 0 <= j < |vas| && AllocationKey(vas[j]) == k
    ensures forall j :: 0 <= j < |vas| && AllocationKey(vas[j]) == k &&
                        (forall l :: j < l < |vas| ==> AllocationKey(vas[l]) != k) ==>
                        k in CacheFold(cache, vas) && CacheFold(cache, vas)[k] == vas[j].vlanId
    ensures (forall j :: 0 <= j < |vas| ==> AllocationKey(vas[j]) != k) && k in cache ==>
              CacheFold(cache, vas)[k] == cache[k]
    decreases |vas|
  {
    if |vas| > 0 {
      var init := vas[..|vas| - 1];
      CacheFoldSpec(cache, init, k);
      assert forall j :: 0 <= j < |init| ==> init[j] == vas[j];
      if k in CacheFold(cache, vas) && k !in cache && AllocationKey(vas[|vas| - 1]) != k {
        var j :| 0 <= j < |init| && AllocationKey(init[j]) == k;
        assert AllocationKey(vas[j]) == k;
      }
    }
  }

  /** The ids of the allocations of `vas` to pool `shared` of switch `t`. */
  function Allocated(vas: seq<VlanAllocation>, t: string, shared: bool): set<nat>
    decreases |vas|
  {
    if |vas| == 0 then {}
    else
      var last := vas[|vas| - 1];
      Allocated(vas[..|vas| - 1], t, shared) + (if last.torIp == t && last.shared == shared then {last.vlanId} else {})
  }

  /** An id is allocated exactly when some allocation of that pool has it. */
  lemma {:induction false} AllocatedIff(vas: seq<VlanAllocation>, t: string, shared: bool, v: nat)
    ensures v in Allocated(vas, t, shared) <==>
      exists j :: 0 <= j < |vas| && vas[j].torIp == t && vas[j].shared == shared && vas[j].vlanId == v
    decreases |vas|
  {
    if |vas| > 0 {
      var init := vas[..|vas| - 1];
      AllocatedIff(init, t, shared, v);
      assert forall j :: 0 <= j < |init| ==> init[j] == vas[j];
      if v in Allocated(vas, t, shared) && v !in Allocated(init, t, shared) {
        assert vas[|vas| - 1].vlanId == v;
      }
    }
  }

  /** The switches named in `tors`. */
  function Switches(tors: seq<string>): (r: set<string>)
    ensures forall t :: t in r <==> t in tors
  {
    set t | t in tors
  }

  /** `get_localvlan` on values: the result, the cache and the marks of
      the pool chosen by `shared` after the call, from the cache `cache`
      and the marks `marked` before it. `present` says whether the switch
      has pools, `id` is the cache key and `index` what `_get_index` found;
      `None` is the KeyError of a switch without pools. A cached id comes
      back, not new, and nothing changes; otherwise the smallest free id of
      the pool is marked, cached and returned as new, and an exhausted pool
      gives -1 with no index and changes nothing. */
  function Take(present: bool, id: string, shared: bool, index: Option<int>,
                cache: map<string, nat>, marked: set<nat>): (Option<LocalVlan>, map<string, nat>, set<nat>)
  {
    if id in cache then (Some(LocalVlan(cache[id], index, false)), cache, marked)
    else if !present then (None, cache, marked)
    else match FirstFree(marked, PoolMin(shared), PoolMax(shared))
      case Some(v) => (Some(LocalVlan(v, index, true)), cache[id := v], marked + {v})
      case None => (Some(LocalVlan(NoAvaVlanId, None, false)), cache, marked)
  }

  /** What `Take` promises: a cached id comes back unchanged with nothing
      else touched; a new id was free in its pool, lies in the pool's
      range, every id of the range below it was taken, and it is marked and
      cached; -1 comes only from a pool with no free id left and changes
      nothing; only a switch without pools and no cached id raises. */
  lemma TakeSpec(present: bool, id: string, shared: bool, index: Option<int>,
                 cache: map<string, nat>, marked: set<nat>)
    ensures var (got, cache', marked') := Take(present, id, shared, index, cache, marked);
      && (got.None? <==> id !in cache && !present)
      && (id in cache ==> got.Some? && got.value.vlan == cache[id] && !got.value.isNew &&
                          cache' == cache && marked' == marked)
      && (got.Some? && got.value.isNew ==>
            && id !in cache && got.value.vlan !in marked && marked' == marked + {got.value.vlan}
            && cache' == cache[id := got.value.vlan]
            && PoolMin(shared) <= got.value.vlan <= PoolMax(shared)
            && forall k :: PoolMin(shared) <= k < got.value.vlan ==> k in marked)
      && (got.Some? && got.value.vlan < 0 ==>
            && id !in cache && cache' == cache && marked' == marked && got.value.index.None?
            && forall k :: PoolMin(shared) <= k <= PoolMax(shared) ==> k in marked)
      && (got.Some? && got.value.vlan >= 0 ==> id in cache' && cache'[id] == got.value.vlan)
  {
    FirstFreeIsSmallest(marked, PoolMin(shared), PoolMax(shared));
    FirstFreeNoneIffFull(marked, PoolMin(shared), PoolMax(shared));
  }

  /** Allocation `va` can be entered: its switch has pools and its id
      falls inside the word array of its pool. */
  predicate Fits(va: VlanAllocation, known: set<string>)
  {
    va.torIp in known && WordIndex(va.vlanId) < WordCount(PoolMax(va.shared))
  }

  class TopofRacks {
    /** The switches, by management address (`_topofracks`). */
    var tors: seq<string>
    /** The pools of each switch (`_topofracks_lvm`). */
    var lvm: map<string, Pools>
    /** The id handed out per cache key (`_topofracks_lvm_cache`). */
    var cache: map<string, nat>
    /** Interface index to neighbour, per switch (`_topology`). */
    var topology: map<string, map<int, IndexInfo>>
    /** The neighbour host names of each switch (`_topology_sp`). */
    var topologySp: map<string, seq<string>>
    /** The word arrays of all pools. */
    ghost var Repr: set<array<bv32>>

    ghost predicate PoolsOk(p: Pools)
      reads this`Repr
    {
      p.shared.min == VlanBaseMin && p.shared.max == VlanBaseMax && p.shared.Valid() &&
      p.unshared.min == VlanVpcMin && p.unshared.max == VlanVpcMax && p.unshared.Valid() &&
      p.shared.words != p.unshared.words && p.shared.words in Repr && p.unshared.words in Repr
    }

    ghost predicate Apart(p: Pools, q: Pools)
    {
      p.shared.words != q.shared.words && p.shared.words != q.unshared.words &&
      p.unshared.words != q.shared.words && p.unshared.words != q.unshared.words
    }

    /** Each switch has a well-formed shared and unshared pool, and no two
        pools share a word array. */
    ghost predicate Valid()
      reads this`lvm, this`Repr
    {
      (forall t :: t in lvm ==> PoolsOk(lvm[t])) &&
      (forall t1, t2 :: t1 in lvm && t2 in lvm && t1 != t2 ==> Apart(lvm[t1], lvm[t2]))
    }

    function Pool(t: string, shared: bool): (b: LocalVlanBitmap)
      requires t in lvm
      reads this`lvm
    {
      if shared then lvm[t].shared else lvm[t].unshared
    }

    /** The ids in use in one pool. */
    ghost function Marked(t: string, shared: bool): set<nat>
      requires t in lvm
      reads this`lvm, Pool(t, shared).words
    {
      MarkedOf(Pool(t, shared).words[..])
    }

    /** The pool of `t` for `shared` spans its range and is well formed. */
    lemma PoolFacts(t: string, shared: bool)
      requires Valid() && t in lvm
      ensures Pool(t, shared).min == PoolMin(shared) && Pool(t, shared).max == PoolMax(shared)
      ensures Pool(t, shared).Valid()
    {
      assert PoolsOk(lvm[t]);
    }

    /** The pools other than that of `t` for `shared` use other arrays. */
    lemma OthersApart(t: string, shared: bool)
      requires Valid() && t in lvm
      ensures forall u, s :: u in lvm && (u != t || s != shared) ==> Pool(u, s).words != Pool(t, shared).words
    {
      forall u, s | u in lvm && (u != t || s != shared)
        ensures Pool(u, s).words != Pool(t, shared).words
      {
        if u != t {
          assert Apart(lvm[u], lvm[t]);
        } else {
          assert PoolsOk(lvm[t]);
        }
      }
    }

    /** What an operation on the pool of `t` for `shared` may change. */
    ghost function PoolFrame(t: string, shared: bool): set<object>
      reads this`lvm
    {
      if t in lvm then {Pool(t, shared).words} else {}
    }

    /** The marks of pool `shared` of switch `t`; none for a switch
        without pools. */
    ghost function Marks(t: string, shared: bool): set<nat>
      reads this`lvm, PoolFrame(t, shared)
    {
      if t in lvm then Marked(t, shared) else {}
    }

    /** The word arrays of every pool except pool `shared` of switch `t`. */
    ghost function OtherWords(t: string, shared: bool): set<array<bv32>>
      reads this`lvm, this`Repr
    {
      if t in lvm then Repr - {Pool(t, shared).words} else Repr
    }

    /** `__init__(topofrack)` before `_init_data`: nothing known yet. */
    constructor(topofrack: seq<string>)
      ensures Valid() && tors == topofrack
      ensures lvm == map[] && cache == map[] && topology == map[] && topologySp == map[]
    {
      tors := topofrack;
      lvm, cache, topology, topologySp := map[], map[], map[], map[];
      Repr := {};
    }

    /** `get_up_tor(host)`: a switch whose neighbour list holds `host`;
        `None` exactly when no list holds it. */
    method GetUpTor(host: string) returns (tor: Option<string>)
      ensures tor.Some? ==> tor.value in topologySp && host in topologySp[tor.value]
      ensures tor.None? <==> forall t :: t in topologySp ==> host !in topologySp[t]
    {
      var left := topologySp.Keys;
      while left != {}
        invariant left <= topologySp.Keys
        invariant forall t :: t in topologySp && t !in left ==> host !in topologySp[t]
        decreases left
      {
        var t :| t in left;
        if host in topologySp[t] {
          return Some(t);
        }
        left := left - {t};
      }
      tor := None;
    }

    /** The host sits behind interface `index` of some switch. */
    predicate HostAt(host: string, index: int)
      reads this`topology
    {
      exists t :: t in topology && index in topology[t] && topology[t][index].host == host
    }

    /** `_get_index(host)`: the interface index of `host` on some switch;
        `None` exactly when no switch sees it. */
    method GetIndex(host: string) returns (index: Option<int>)
      ensures index.Some? ==> HostAt(host, index.value)
      ensures index.None? <==> forall i :: !HostAt(host, i)
    {
      var left := topology.Keys;
      while left != {}
        invariant left <= topology.Keys
        invariant forall t, i :: t in topology && t !in left && i in topology[t] ==> topology[t][i].host != host
        decreases left
      {
        var t :| t in left;
        index := FindHost(topology[t], host);
        if index.Some? {
          return;
        }
        left := left - {t};
      }
      index := None;
    }

    /** Switch `t` is recorded as its walks describe it. */
    ghost predicate Built(t: string, execute: Execute)
      reads this`topology, this`topologySp
    {
      Recorded(topology, topologySp, t, execute)
    }

    /** `_get_topology(execute)`: every switch of `tors` is walked and
        recorded; it fails with KeyError when a neighbour of some switch
        lacks a field. */
    method GetTopology(execute: Execute) returns (r: Result<()>)
      modifies this`topology, this`topologySp
      ensures r.Err? ==> r == Err(KeyError)
      ensures r.Ok? <==> forall j :: 0 <= j < |tors| ==> TorComplete(tors[j], execute)
      ensures r.Ok? ==> forall j :: 0 <= j < |tors| ==> Built(tors[j], execute)
    {
      var k := 0;
      while k < |tors|
        invariant 0 <= k <= |tors|
        invariant forall j :: 0 <= j < k ==> TorComplete(tors[j], execute)
        invariant forall j :: 0 <= j < k ==> Built(tors[j], execute)
      {
        var t := tors[k];
        var local := ParseLocalData(t, execute);
        var remote := ParseRemoteData(t, execute);
        var m, sp;
        m, sp, r := BuildTor(t, local, remote);
        ghost var top0, sp0 := topology, topologySp;
        topology := topology[t := m];
        topologySp := topologySp[t := sp];
        if r.Err? {
          return;
        }
        forall j | 0 <= j < k + 1
          ensures Recorded(topology, topologySp, tors[j], execute)
        {
          if tors[j] != t {
            RecordedFrame(top0, sp0, t, m, sp, tors[j], execute);
          }
        }
        k := k + 1;
      }
      r := Ok(());
    }

    /** The switch index handed back for `host`: an interface behind which
        it sits, or `None` when no switch sees it. */
    ghost predicate IndexResult(host: string, index: Option<int>)
      reads this`topology
    {
      (index.Some? ==> HostAt(host, index.value)) && (index.None? ==> forall i :: !HostAt(host, i))
    }

    /** `_get_vlan_id(tor_ip, shared, id)`: the smallest free id of the
        switch's pool for `shared`, marked and cached under `id`; `None`,
        with nothing changed, when that pool is exhausted; KeyError for a
        switch without pools. */
    method GetVlanId(torIp: string, shared: bool, id: string) returns (r: Result<Option<nat>>)
      requires Valid()
      modifies this`cache, PoolFrame(torIp, shared)
      ensures Valid() && unchanged(this`tors, this`lvm, this`Repr, this`topology, this`topologySp)
      ensures torIp !in lvm ==> r == Err(KeyError) && cache == old(cache)
      ensures torIp in lvm ==> r == Ok(FirstFree(old(Marked(torIp, shared)), PoolMin(shared), PoolMax(shared)))
      ensures r.Ok? && r.value.Some? ==>
        (torIp in lvm && cache == old(cache)[id := r.value.value] &&
         Marked(torIp, shared) == old(Marked(torIp, shared)) + {r.value.value})
      ensures r.Ok? && r.value.None? ==> cache == old(cache) && unchanged(PoolFrame(torIp, shared))
    {
      if torIp !in lvm {
        return Err(KeyError);
      }
      var v := TakeFree(torIp, shared);
      if v.Some? {
        cache := cache[id := v.value];
      }
      r := Ok(v);
    }

    /** The pool step of `get_vlan_id`: the lowest free id of the pool of
        `torIp` for `shared` is marked and returned. */
    method TakeFree(torIp: string, shared: bool) returns (v: Option<nat>)
      requires Valid() && torIp in lvm
      modifies PoolFrame(torIp, shared)
      ensures Valid() && unchanged(this)
      ensures v == FirstFree(old(Marked(torIp, shared)), PoolMin(shared), PoolMax(shared))
      ensures v.Some? ==> Marked(torIp, shared) == old(Marked(torIp, shared)) + {v.value}
      ensures v.None? ==> unchanged(PoolFrame(torIp, shared))
    {
      var pool := Pool(torIp, shared);
      PoolFacts(torIp, shared);
      v := pool.GetUnusedBits();
    }

    /** `get_localvlan(network, port, tor_ip, host)`: the cached id of the
        network on the switch, not new; on a miss a fresh id from the pool
        chosen by the network's `shared` flag, cached and new; -1 when that
        pool is exhausted. The host's interface index goes along. */
    method GetLocalVlan(networkId: string, shared: bool, torIp: string, host: string) returns (r: Result<LocalVlan>)
      requires Valid()
      modifies this, PoolFrame(torIp, shared)
      ensures Valid() && tors == old(tors) && lvm == old(lvm) && Repr == old(Repr)
      ensures topology == old(topology) && topologySp == old(topologySp)
      ensures r.Ok? && r.value.vlan >= 0 ==> IndexResult(host, r.value.index)
      ensures var id := CacheId(torIp, networkId, shared);
        id in old(cache) ==> r.Ok? && r.value.vlan == old(cache)[id] && !r.value.isNew &&
                             cache == old(cache) && unchanged(PoolFrame(torIp, shared))
      ensures var id := CacheId(torIp, networkId, shared);
        id !in old(cache) && torIp !in lvm ==> r == Err(KeyError) && cache == old(cache)
      ensures var id := CacheId(torIp, networkId, shared);
        id !in old(cache) && torIp in lvm ==>
          var f := FirstFree(old(Marked(torIp, shared)), PoolMin(shared), PoolMax(shared));
          r.Ok? &&
          (f.Some? ==> r.value.vlan == f.value && r.value.isNew && cache == old(cache)[id := f.value] &&
                       Marked(torIp, shared) == old(Marked(torIp, shared)) + {f.value}) &&
          (f.None? ==> r.value == LocalVlan(NoAvaVlanId, None, false) && cache == old(cache) && unchanged(PoolFrame(torIp, shared)))
      ensures r.Ok? && r.value.isNew ==>
        (torIp in lvm && PoolMin(shared) <= r.value.vlan <= PoolMax(shared) &&
         r.value.vlan !in old(Marked(torIp, shared)))
    {
      var id := CacheId(torIp, networkId, shared);
      var index := GetIndex(host);
      if id in cache {
        return Ok(LocalVlan(cache[id], index, false));
      }
      ghost var marked := if torIp in lvm then Marked(torIp, shared) else {};
      var v := GetVlanId(torIp, shared, id);
      if v.Err? {
        return Err(KeyError);
      }
      FirstFreeIsSmallest(marked, PoolMin(shared), PoolMax(shared));
      if v.value.None? {
        return Ok(LocalVlan(NoAvaVlanId, None, false));
      }
      r := Ok(LocalVlan(v.value.value, index, true));
    }

    /** `_delete_vlan_id(tor_ip, shared, id, vlan)`: the id is cleared in the
        switch's pool for `shared`, then the cache key `id` is removed;
        KeyError for a switch without pools or an absent key (the id is
        cleared by then), IndexError for an id outside the word array. */
    method DeleteVlanId(torIp: string, shared: bool, id: string, vlan: nat) returns (r: Result<()>)
      requires Valid()
      modifies this, PoolFrame(torIp, shared)
      ensures Valid() && tors == old(tors) && lvm == old(lvm) && Repr == old(Repr)
      ensures topology == old(topology) && topologySp == old(topologySp)
      ensures torIp !in lvm ==> r == Err(KeyError) && cache == old(cache)
      ensures torIp in lvm && WordIndex(vlan) >= WordCount(PoolMax(shared)) ==>
        r == Err(IndexError) && cache == old(cache) && unchanged(PoolFrame(torIp, shared))
      ensures torIp in lvm && WordIndex(vlan) < WordCount(PoolMax(shared)) ==>
        Marked(torIp, shared) == old(Marked(torIp, shared)) - {vlan} &&
        (id in old(cache) ==> r == Ok(()) && cache == old(cache) - {id}) &&
        (id !in old(cache) ==> r == Err(KeyError) && cache == old(cache))
    {
      if torIp !in lvm {
        return Err(KeyError);
      }
      var pool := Pool(torIp, shared);
      PoolFacts(torIp, shared);
      var ok := pool.DeleteBits(vlan);
      if !ok {
        return Err(IndexError);
      }
      if id !in cache {
        return Err(KeyError);
      }
      cache := cache - {id};
      r := Ok(());
    }

    /** `delete_localvlan(network_id, tor_ip, vlan, shared)`: `vlan` is
        released in the pool chosen by `shared` and the first cache key that
        starts with the switch followed by the network is removed; with no
        such key the key '' is tried, which fails with KeyError unless
        present. */
    method DeleteLocalVlan(networkId: string, torIp: string, vlan: nat, shared: bool) returns (r: Result<()>)
      requires Valid()
      modifies this, PoolFrame(torIp, shared)
      ensures Valid() && tors == old(tors) && lvm == old(lvm) && Repr == old(Repr)
      ensures topology == old(topology) && topologySp == old(topologySp)
      ensures torIp !in lvm ==> r == Err(KeyError) && cache == old(cache)
      ensures torIp in lvm && WordIndex(vlan) >= WordCount(PoolMax(shared)) ==>
        r == Err(IndexError) && cache == old(cache) && unchanged(PoolFrame(torIp, shared))
      ensures torIp in lvm && WordIndex(vlan) < WordCount(PoolMax(shared)) ==>
        Marked(torIp, shared) == old(Marked(torIp, shared)) - {vlan}
      ensures (torIp in lvm && WordIndex(vlan) < WordCount(PoolMax(shared)) &&
               exists k :: k in old(cache) && StartsWith(k, torIp + networkId)) ==>
        r == Ok(()) && exists k :: k in old(cache) && StartsWith(k, torIp + networkId) && cache == old(cache) - {k}
      ensures (torIp in lvm && WordIndex(vlan) < WordCount(PoolMax(shared)) &&
               forall k :: k in old(cache) ==> !StartsWith(k, torIp + networkId)) ==>
        if "" in old(cache) then r == Ok(()) && cache == old(cache) - {""}
        else r == Err(KeyError) && cache == old(cache)
    {
      var prefix := torIp + networkId;
      var cacheId := "";
      var left := cache.Keys;
      while left != {}
        invariant left <= cache.Keys && cacheId == ""
        invariant forall k :: k in cache && k !in left ==> !StartsWith(k, prefix)
        decreases left
        modifies {}
      {
        var k := Any(left);
        if StartsWith(k, prefix) {
          cacheId := k;
          break;
        }
        left := left - {k};
      }
      assert (cacheId in cache && StartsWith(cacheId, prefix)) ||
             (cacheId == "" && forall k :: k in cache ==> !StartsWith(k, prefix));
      r := DeleteVlanId(torIp, shared, cacheId, vlan);
    }

    /** One step of `_init_data`'s pool loop: `t` gets a fresh, empty
        shared and unshared pool (replacing any it had); the other pools
        stay. */
    method AddPools(t: string)
      requires Valid()
      modifies this`lvm, this`Repr
      ensures Valid() && t in lvm && lvm == old(lvm)[t := lvm[t]]
      ensures Marked(t, true) == {} && Marked(t, false) == {}
      ensures fresh(Repr - old(Repr))
    {
      var sh := new LocalVlanBitmap(VlanBaseMin, VlanBaseMax);
      var un := new LocalVlanBitmap(VlanVpcMin, VlanVpcMax);
      ghost var lvm0, repr0 := lvm, Repr;
      lvm := lvm[t := Pools(sh, un)];
      Repr := Repr + {sh.words, un.words};
      assert PoolsOk(lvm[t]);
      forall u | u in lvm && u != t
        ensures PoolsOk(lvm[u]) && Apart(lvm[u], lvm[t])
      {
        assert lvm[u] == lvm0[u];
      }
      assert Pool(t, true) == sh && Pool(t, false) == un;
    }

    /** One step of `_init_data`'s allocation loop: `va`'s key is cached
        with its id, then the id is marked in its pool; KeyError when its
        switch has no pools, IndexError when the id is beyond the pool's
        words (the cache entry is made either way). */
    method LoadAllocation(va: VlanAllocation) returns (r: Result<()>)
      requires Valid()
      modifies this`cache, Repr
      ensures Valid() && lvm == old(lvm) && Repr == old(Repr)
      ensures cache == old(cache)[AllocationKey(va) := va.vlanId]
      ensures r.Ok? <==> Fits(va, lvm.Keys)
      ensures va.torIp !in lvm ==> r == Err(KeyError)
      ensures va.torIp in lvm && !Fits(va, lvm.Keys) ==> r == Err(IndexError)
      ensures r.Ok? ==> forall t, s :: t in lvm ==>
        Marked(t, s) == old(Marked(t, s)) + (if t == va.torIp && s == va.shared then {va.vlanId} else {})
    {
      cache := cache[AllocationKey(va) := va.vlanId];
      if va.torIp !in lvm {
        return Err(KeyError);
      }
      var pool := Pool(va.torIp, va.shared);
      PoolFacts(va.torIp, va.shared);
      OthersApart(va.torIp, va.shared);
      var ok := pool.AddBits(va.vlanId);
      if !ok {
        return Err(IndexError);
      }
      r := Ok(());
    }

    /** `_init_data`'s pool loop: every switch of `tors` gets fresh, empty
        pools. */
    method AddAllPools()
      requires Valid()
      modifies this`lvm, this`Repr
      ensures Valid() && lvm.Keys == old(lvm).Keys + Switches(tors)
      ensures forall t, s :: t in tors ==> t in lvm && Marked(t, s) == {}
      ensures fresh(Repr - old(Repr))
    {
      var i := 0;
      while i < |tors|
        invariant 0 <= i <= |tors|
        invariant Valid() && lvm.Keys == old(lvm).Keys + Switches(tors[..i])
        invariant forall t, s :: t in tors[..i] ==> t in lvm && Marked(t, s) == {}
        invariant fresh(Repr - old(Repr))
      {
        assert tors[..i + 1] == tors[..i] + [tors[i]];
        ghost var lvm0 := lvm;
        label Before:
        AddPools(tors[i]);
        forall t, s | t in tors[..i + 1]
          ensures t in lvm && Marked(t, s) == {}
        {
          if t != tors[i] {
            assert t in tors[..i];
            assert old@Before(Marked(t, s)) == {};
            assert Pool(t, s) == old@Before(Pool(t, s));
            assert Pool(t, s).words[..] == old@Before(Pool(t, s).words[..]);
          }
        }
        i := i + 1;
      }
      assert tors[..i] == tors;
    }

    /** `_init_data`'s allocation loop: the allocations are entered in
        order; the first that does not fit stops the loop with its fault.
        When all fit, the cache is the fold of their keys and each pool
        gains exactly the ids allocated from it. */
    method LoadAllocations(vas: seq<VlanAllocation>) returns (r: Result<()>)
      requires Valid()
      modifies this`cache, Repr
      ensures Valid() && lvm == old(lvm) && Repr == old(Repr)
      ensures r.Err? ==> r.fault == KeyError || r.fault == IndexError
      ensures r.Ok? <==> forall j :: 0 <= j < |vas| ==> Fits(vas[j], lvm.Keys)
      ensures r.Ok? ==> cache == CacheFold(old(cache), vas)
      ensures r.Ok? ==> forall t, s :: t in lvm ==> Marked(t, s) == old(Marked(t, s)) + Allocated(vas, t, s)
    {
      ghost var m0 := map t, s | t in lvm && s in {false, true} :: (t, s) := Marked(t, s);
      r := Ok(());
      var i := 0;
      while i < |vas|
        invariant 0 <= i <= |vas|
        invariant Valid() && lvm == old(lvm) && Repr == old(Repr) && r.Ok?
        invariant cache == CacheFold(old(cache), vas[..i])
        invariant forall j :: 0 <= j < i ==> Fits(vas[j], lvm.Keys)
        invariant MarkedFrom(m0, vas[..i])
      {
        r := LoadNext(vas, i, m0, old(cache));
        if r.Err? {
          return;
        }
        i := i + 1;
      }
      assert vas[..i] == vas;
    }

    /** Each pool holds the ids recorded for it in `m0` and those `vas`
        allocates from it. */
    ghost predicate MarkedFrom(m0: map<(string, bool), set<nat>>, vas: seq<VlanAllocation>)
      requires Valid()
      reads this`lvm, this`Repr, Repr
    {
      forall t, s :: t in lvm ==> (t, s) in m0 && Marked(t, s) == m0[(t, s)] + Allocated(vas, t, s)
    }

    /** Iteration `i` of the allocation loop, from the cache `cache0` and
        the pool contents `m0` the loop started with. */
    method LoadNext(vas: seq<VlanAllocation>, i: nat, ghost m0: map<(string, bool), set<nat>>,
                    ghost cache0: map<string, nat>) returns (r: Result<()>)
      requires Valid() && i < |vas|
      requires cache == CacheFold(cache0, vas[..i])
      requires MarkedFrom(m0, vas[..i])
      modifies this`cache, Repr
      ensures Valid() && lvm == old(lvm) && Repr == old(Repr)
      ensures r.Ok? <==> Fits(vas[i], lvm.Keys)
      ensures r.Err? ==> r.fault == KeyError || r.fault == IndexError
      ensures r.Ok? ==> cache == CacheFold(cache0, vas[..i + 1])
      ensures r.Ok? ==> MarkedFrom(m0, vas[..i + 1])
    {
      assert vas[..i + 1][..i] == vas[..i] && vas[..i + 1][i] == vas[i];
      r := LoadAllocation(vas[i]);
    }

    /** Every switch of `tors` has pools, and each of its pools holds
        exactly the ids `vas` allocates from it there. */
    ghost predicate Loaded(vas: seq<VlanAllocation>)
      reads this`tors, this`lvm, this`Repr, Repr
    {
      Valid() && forall t, s :: t in tors ==> t in lvm && Marked(t, s) == Allocated(vas, t, s)
    }

    /** The pool part of `_init_data`: fresh pools for every switch, then
        the allocations entered into them. */
    method InitPools(vas: seq<VlanAllocation>) returns (r: Result<()>)
      requires Valid()
      modifies this`lvm, this`Repr, this`cache, Repr
      ensures Valid()
      ensures r.Err? ==> r.fault == KeyError || r.fault == IndexError
      ensures r.Ok? <==> forall j :: 0 <= j < |vas| ==> Fits(vas[j], old(lvm).Keys + Switches(tors))
      ensures r.Ok? ==> cache == CacheFold(old(cache), vas)
      ensures r.Ok? ==> Loaded(vas)
    {
      AddAllPools();
      label Pooled:
      r := LoadAllocations(vas);
      if r.Ok? {
        forall t, s | t in tors
          ensures t in lvm && Marked(t, s) == Allocated(vas, t, s)
        {
          assert old@Pooled(Marked(t, s)) == {};
        }
        assert Loaded(vas);
      }
    }

    /** `_init_data(execute, vas)`: the topology is walked first; then each
        switch gets a fresh shared and unshared pool; then each persisted
        allocation is cached under its key and its id is marked in its
        pool. KeyError for an incomplete walk or for an allocation on a
        switch without pools, IndexError for an id beyond its pool's words. */
    method InitData(execute: Execute, vas: seq<VlanAllocation>) returns (r: Result<()>)
      requires Valid()
      modifies this`topology, this`topologySp, this`lvm, this`Repr, this`cache, Repr
      ensures Valid()
      ensures r.Err? ==> r.fault == KeyError || r.fault == IndexError
      ensures r.Ok? <==> (TopologyOk(tors, execute) &&
        forall j :: 0 <= j < |vas| ==> Fits(vas[j], old(lvm).Keys + Switches(tors)))
      ensures r.Ok? ==> forall j :: 0 <= j < |tors| ==> Built(tors[j], execute)
      ensures r.Ok? ==> cache == CacheFold(old(cache), vas)
      ensures r.Ok? ==> Loaded(vas)
    {
      r := GetTopology(execute);
      if r.Err? {
        return;
      }
      r := InitPools(vas);
    }
  }
}
