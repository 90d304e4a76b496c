/** The workflows of `Sapi` (sapi.py) that tie the tables, the VLAN pools
    of the switches and the switch drivers together: binding a port to a
    local VLAN and releasing it, adding and removing a switch with its
    tunnel mesh, and the full resynchronisation of networks, ports and
    subnets. */
module Sapi {
  import opened Faults
  import opened Text
  import opened Rows
  import opened Tables
  import opened LvTables
  import opened Bitmap
  import opened Topology
  import opened Drivers
  import opened Bodies
  import opened Outcomes
  import opened Mesh
  import opened Resync

  /** The calls that put `vlan` on interface `index` of `torIp`, bound to
      `vxlan` and to every tunnel. */
  function VlanCalls(torIp: string, vlan: int, index: Option<int>, vxlan: int, tunnelIds: seq<int>): seq<Call>
  {
    [Initialize(torIp, User, Passwd), NewVlan2Vxlan(index, vlan, vxlan), EnsureVxlanWithTunnel([vxlan], tunnelIds)]
  }

  /** The calls that take `vlan` off interface `index` of `torIp`. */
  function UnvlanCalls(torIp: string, vlan: int, index: Option<int>, vxlan: int, onlyIndex: bool): seq<Call>
  {
    [Initialize(torIp, User, Passwd), DeleteVlan2Vxlan(index, vlan, vxlan, onlyIndex)]
  }

  /** What lines 220-228 of `create_localvlan` log and raise: nothing when
      a mapping already puts the VLAN on that interface (`found`);
      otherwise the switch is looked up (`tor`) and the three configuration
      calls go to the driver of its type, from `log` on. */
  function Configuration(found: bool, tor: Result<Tor>, d: map<string, Driver>, log: seq<Issued>,
                         torIp: string, vlan: nat, index: Option<int>, vxlan: int, tunnelIds: seq<int>)
    : (seq<Issued>, Outcome)
  {
    if found then ([], Success)
    else match tor
      case Err(f) => ([], Failure(Caught(f)))
      case Ok(t) =>
        var run := Run(d, log, t.switchType, VlanCalls(torIp, vlan, index, vxlan, tunnelIds));
        (run.0, Raised(run.1))
  }

  /** Lines 229-240 as a change of the tables: the allocation and the VSI
      rows are added when the id is new, and the mapping `m` unless its
      port is mapped already, which is a bad request. */
  ghost predicate Placed(allocations0: seq<VlanAllocation>, vsis0: seq<Vsi>, mappings0: seq<PortVlanMapping>,
                           allocations: seq<VlanAllocation>, vsis: seq<Vsi>, mappings: seq<PortVlanMapping>,
                           r: Outcome, m: PortVlanMapping, net: Net, isNew: bool)
  {
    && allocations == allocations0 + (if isNew then [VlanAllocation(m.networkId, m.torIp, m.vlanId, true, net.shared)] else [])
    && vsis == vsis0 + (if isNew then [Vsi(m.torIp, net.segmentationId)] else [])
    && (r.Failure? <==> exists i :: 0 <= i < |mappings0| && mappings0[i].portId == m.portId)
    && (r.Failure? ==> r == Failure(BadRequest) && mappings == mappings0)
    && (r.Success? ==> mappings == mappings0 + [m])
  }

  /** Lines 220-240 as a whole: the calls logged from `log0` to `log`,
      and the rows written, for mapping `m` of a port to an id that may be
      `isNew`. A refused or failed configuration writes no row. */
  ghost predicate Committed(found: bool, tor: Result<Tor>, d: map<string, Driver>, log0: seq<Issued>, log: seq<Issued>,
                            tunnelIds: seq<int>,
                            allocations0: seq<VlanAllocation>, vsis0: seq<Vsi>, mappings0: seq<PortVlanMapping>,
                            allocations: seq<VlanAllocation>, vsis: seq<Vsi>, mappings: seq<PortVlanMapping>,
                            r: Outcome, m: PortVlanMapping, net: Net, isNew: bool)
  {
    var (sent, out) := Configuration(found, tor, d, log0, m.torIp, m.vlanId, m.index, net.segmentationId, tunnelIds);
    && log == log0 + sent
    && (out.Failure? ==> r == out && allocations == allocations0 && vsis == vsis0 && mappings == mappings0)
    && (out.Success? ==> Placed(allocations0, vsis0, mappings0, allocations, vsis, mappings, r, m, net, isNew))
  }

  /** What `delete_localvlan` of topology.py did on a switch, seen
      through the cache (from `cache0` to `cache`) and the marks of the
      network's pool (from `marked0` to `marked`), and how the workflow ends
      (`r`). `present` says whether the switch has pools and `fits` whether
      `vlan` lies inside the pool's word array. A switch without pools is a
      KeyError and an id past the array an IndexError, and neither changes
      the cache or the marks; otherwise the id is unmarked, then the first
      cache key starting with `prefix` goes, or the key '' when there is
      none, and with neither the KeyError escapes. */
  ghost predicate Released(present: bool, fits: bool, prefix: string, vlan: nat,
                           cache0: map<string, nat>, cache: map<string, nat>,
                           marked0: set<nat>, marked: set<nat>, r: Outcome)
  {
    if !present then r == Failure(Unhandled(KeyError)) && cache == cache0 && marked == marked0
    else if !fits then r == Failure(Unhandled(IndexError)) && cache == cache0 && marked == marked0
    else
      marked == marked0 - {vlan} &&
      if exists k :: k in cache0 && StartsWith(k, prefix) then
        r == Success && exists k :: k in cache0 && StartsWith(k, prefix) && cache == cache0 - {k}
      else if "" in cache0 then r == Success && cache == cache0 - {""}
      else r == Failure(Unhandled(KeyError)) && cache == cache0
  }

  /** An id taken for a network from the pool of a switch with pools and
      then released for that network leaves the marks as they were and
      succeeds; when no other cache key starts with the switch and network,
      the cache is back as it was too. */
  lemma TakeThenRelease(t: string, networkId: string, shared: bool, index: Option<int>,
                         cache0: map<string, nat>, marked0: set<nat>,
                         cache: map<string, nat>, marked: set<nat>, r: Outcome)
    requires var (got, cache1, marked1) := Take(true, CacheId(t, networkId, shared), shared, index, cache0, marked0);
      && got.Some? && got.value.isNew
      && Released(true, WordIndex(got.value.vlan) < WordCount(PoolMax(shared)), t + networkId, got.value.vlan,
                  cache1, cache, marked1, marked, r)
    ensures marked == marked0 && r == Success
    ensures (forall k :: k in cache0 ==> !StartsWith(k, t + networkId)) ==> cache == cache0
  {
    var id := CacheId(t, networkId, shared);
    var (got, cache1, marked1) := Take(true, id, shared, index, cache0, marked0);
    TakeSpec(true, id, shared, index, cache0, marked0);
    var v := got.value.vlan;
    IdsInRange(PoolMax(shared), v);
    assert id in cache1 && StartsWith(id, t + networkId);
    assert marked == marked0 by {
      assert marked == marked1 - {v} && marked1 == marked0 + {v} && v !in marked0;
    }
    if forall k :: k in cache0 ==> !StartsWith(k, t + networkId) {
      var k :| k in cache1 && StartsWith(k, t + networkId) && cache == cache1 - {k};
      assert k == id;
      assert cache == cache0 by {
        assert cache1 == cache0[id := v] && id !in cache0;
      }
    }
  }

  /** Lines 265-272: the calls that take the VLAN off the interface go out
      only when no other mapping uses it (`icount <= 1`); `onlyIndex` is
      false once the network's id was given back. */
  function UnvlanRun(icount: nat, d: map<string, Driver>, log: seq<Issued>, t: string,
                     m: PortVlanMapping, vxlan: int, onlyIndex: bool): (seq<Issued>, Stop)
  {
    if icount <= 1 then Run(d, log, t, UnvlanCalls(m.torIp, m.vlanId, m.index, vxlan, onlyIndex))
    else ([], Completed)
  }

  /** Lines 265-274 as a change: the calls of `run` are logged from `log0`
      to `log`; a refused call keeps the mapping rows `rows0`, otherwise
      the port's row goes and the rest stay. */
  ghost predicate Unmapped(run: (seq<Issued>, Stop), log0: seq<Issued>, log: seq<Issued>,
                     rows0: seq<PortVlanMapping>, rows: seq<PortVlanMapping>, portId: string, r: Outcome)
  {
    && log == log0 + run.0
    && (run.1 != Completed ==> r == Raised(run.1) && rows == rows0)
    && (run.1 == Completed ==> r == Success && forall x :: x in rows <==> x in rows0 && x.portId != portId)
  }

  /** The VSI rows of VXLAN `vxlan` on `torIp` are gone, the others stay. */
  ghost predicate VsisDropped(vsis0: seq<Vsi>, vsis: seq<Vsi>, torIp: string, vxlan: int)
  {
    forall v :: v in vsis <==> v in vsis0 && !(v.torIp == torIp && v.vxlan == vxlan)
  }

  /** The allocation rows of network `networkId` on `torIp` are gone, the
      others stay. */
  ghost predicate AllocationsDropped(allocations0: seq<VlanAllocation>, allocations: seq<VlanAllocation>,
                                     torIp: string, networkId: string)
  {
    forall a :: a in allocations <==> a in allocations0 && !(a.torIp == torIp && a.networkId == networkId)
  }

  class Sapi {
    const store: Store
    const lv: LvStore
    const tors: TopofRacks
    const drivers: DriverManager

    /** The tables, the local-VLAN tables and the pools, each well formed;
        no table lives inside the pools' word arrays. */
    ghost predicate Valid()
      reads store, store.nets, store.tors, store.ports, store.subnets, lv.mappings, tors
    {
      && store.Valid() && lv.Valid() && tors.Valid()
      && Tables() !! tors.Repr
    }

    /** The table objects the workflows read or write. */
    ghost function Tables(): set<object>
      reads store
    {
      {store.nets as object, store.tors, store.ports, store.subnets, lv.mappings}
    }

    /** The service over existing tables, pools and drivers. */
    constructor(store: Store, lv: LvStore, tors: TopofRacks, drivers: DriverManager)
      requires store.Valid() && lv.Valid() && tors.Valid()
      ensures Valid()
      ensures this.store == store && this.lv == lv && this.tors == tors && this.drivers == drivers
    {
      this.store, this.lv, this.tors, this.drivers := store, lv, tors, drivers;
    }

    /** One `if not self.switch_drivers[t].<call>(...): raise
        SapiTorConfigError`. */
    method Send(t: string, c: Call) returns (r: Outcome)
      modifies drivers`log
      ensures var run := Run(drivers.drivers, old(drivers.log), t, [c]);
        drivers.log == old(drivers.log) + run.0 && r == Raised(run.1)
    {
      assert [c][1..] == [];
      var reply := drivers.Invoke(t, c);
      if reply.Err? {
        r := Failure(Unhandled(KeyError));
      } else if reply.value.Raise? {
        r := Failure(Unhandled(reply.value.fault));
      } else if !reply.value.status {
        r := Failure(TorConfigError);
      } else {
        r := Success;
        assert drivers.log == old(drivers.log) + ([Issued(t, c)] + []);
      }
    }

    /** Two guarded calls in a row to the driver of `t`. */
    method SendTwo(t: string, c0: Call, c1: Call) returns (r: Outcome)
      modifies drivers`log
      ensures var run := Run(drivers.drivers, old(drivers.log), t, [c0, c1]);
        drivers.log == old(drivers.log) + run.0 && r == Raised(run.1)
    {
      RunAppend(drivers.drivers, drivers.log, t, [c0], [c1]);
      assert [c0] + [c1] == [c0, c1];
      ghost var log0 := drivers.log;
      r := Send(t, c0);
      if r.Success? {
        ghost var log1 := drivers.log;
        r := Send(t, c1);
        ghost var s0 := Run(drivers.drivers, log0, t, [c0]).0;
        ghost var s1 := Run(drivers.drivers, log1, t, [c1]).0;
        assert drivers.log == log0 + (s0 + s1);
      }
    }

    /** Three guarded calls in a row to the driver of `t`. */
    method SendThree(t: string, c0: Call, c1: Call, c2: Call) returns (r: Outcome)
      modifies drivers`log
      ensures var run := Run(drivers.drivers, old(drivers.log), t, [c0, c1, c2]);
        drivers.log == old(drivers.log) + run.0 && r == Raised(run.1)
    {
      RunAppend(drivers.drivers, drivers.log, t, [c0], [c1, c2]);
      assert [c0] + [c1, c2] == [c0, c1, c2];
      r := Send(t, c0);
      if r.Success? {
        r := SendTwo(t, c1, c2);
      }
    }

    // ---- create_localvlan ----

    /** Lines 221-228: look the switch up and configure the VLAN on it. */
    method ConfigureVlan(torIp: string, vlan: nat, index: Option<int>, vxlan: int) returns (r: Outcome)
      requires store.Valid()
      modifies drivers`log
      ensures tors.cache == old(tors.cache)
      ensures tors.Marks(torIp, true) == old(tors.Marks(torIp, true)) && tors.Marks(torIp, false) == old(tors.Marks(torIp, false))
      ensures var (sent, out) := Configuration(false, store.GetTor(torIp), drivers.drivers, old(drivers.log),
                                               torIp, vlan, index, vxlan, TunnelIds(lv.tunnels));
        drivers.log == old(drivers.log) + sent && r == out
    {
      var tor := store.GetTor(torIp);
      if tor.Err? {
        return Failure(Caught(tor.fault));
      }
      var calls := VlanCalls(torIp, vlan, index, vxlan, TunnelIds(lv.tunnels));
      r := SendThree(tor.value.switchType, calls[0], calls[1], calls[2]);
    }

    /** Lines 229-240: record a newly allocated id and the VXLAN's VSI,
        then map the port; a port mapped already is a bad request. */
    method RecordVlan(networkId: string, portId: string, torIp: string, net: Net,
                      vlan: nat, index: Option<int>, isNew: bool) returns (r: Outcome)
      requires lv.Valid()
      modifies lv, lv.mappings
      ensures lv.Valid() && lv.tunnels == old(lv.tunnels)
      ensures tors.cache == old(tors.cache) && tors.Marks(torIp, net.shared) == old(tors.Marks(torIp, net.shared))
      ensures lv.allocations == old(lv.allocations) + (if isNew then [VlanAllocation(networkId, torIp, vlan, true, net.shared)] else [])
      ensures lv.vsis == old(lv.vsis) + (if isNew then [Vsi(torIp, net.segmentationId)] else [])
      ensures r.Failure? <==> exists i :: 0 <= i < |old(lv.mappings.rows)| && old(lv.mappings.rows)[i].portId == portId
      ensures r.Failure? ==> r == Failure(BadRequest) && lv.mappings.rows == old(lv.mappings.rows)
      ensures r.Success? ==> lv.mappings.rows == old(lv.mappings.rows) + [PortVlanMapping(portId, networkId, torIp, vlan, index)]
    {
      if isNew {
        lv.SaveVlanAllocation(VlanAllocation(networkId, torIp, vlan, true, net.shared));
        lv.SaveVsi(Vsi(torIp, net.segmentationId));
      }
      var saved := lv.SavePortVlanMapping(PortVlanMapping(portId, networkId, torIp, vlan, index));
      r := if saved.Err? then Failure(BadRequest) else Success;
    }

    /** Lines 220-240, once `get_localvlan` answered a VLAN id `got`:
        configure the switch unless a mapping already covers that VLAN on
        that interface, then record. A failed configuration writes no row. */
    method PlaceVlan(networkId: string, portId: string, torIp: string, net: Net, got: LocalVlan) returns (r: Outcome)
      requires store.Valid() && lv.Valid() && got.vlan >= 0
      modifies lv, lv.mappings, drivers`log
      ensures lv.Valid() && lv.tunnels == old(lv.tunnels)
      ensures unchanged(tors, tors.Repr)
      ensures tors.cache == old(tors.cache) && tors.Marks(torIp, net.shared) == old(tors.Marks(torIp, net.shared))
      ensures
        Committed(old(lv.IsExistsPvm(torIp, got.vlan, got.index)), store.GetTor(torIp), drivers.drivers,
                  old(drivers.log), drivers.log, TunnelIds(lv.tunnels),
                  old(lv.allocations), old(lv.vsis), old(lv.mappings.rows),
                  lv.allocations, lv.vsis, lv.mappings.rows,
                  r, PortVlanMapping(portId, networkId, torIp, got.vlan, got.index), net, got.isNew)
    {
      var vlan, index := got.vlan, got.index;
      if !lv.IsExistsPvm(torIp, vlan, index) {
        var configured := ConfigureVlan(torIp, vlan, index, net.segmentationId);
        if configured.Failure? {
          return configured;
        }
      }
      r := RecordVlan(networkId, portId, torIp, net, vlan, index, got.isNew);
    }

    /** Line 216: `get_localvlan` on switch `t`, seen through the cache and
        the marks of the chosen pool; `None` is the KeyError of a switch
        without pools. No other pool changes. */
    method Allocate(t: string, networkId: string, shared: bool, host: string) returns (got: Option<LocalVlan>)
      requires tors.Valid()
      modifies tors, tors.Repr
      ensures tors.Valid() && tors.lvm == old(tors.lvm)
      ensures unchanged(old(tors.OtherWords(t, shared)))
      ensures (got, tors.cache, tors.Marks(t, shared)) ==
        Take(t in tors.lvm, CacheId(t, networkId, shared), shared, if got.Some? then got.value.index else None,
             old(tors.cache), old(tors.Marks(t, shared)))
    {
      if t in tors.lvm {
        assert tors.PoolsOk(tors.lvm[t]);
      }
      var v := tors.GetLocalVlan(networkId, shared, t, host);
      got := if v.Ok? then Some(v.value) else None;
    }

    /** Lines 216-240 on switch `t`: get an id for the network, refuse an
        exhausted pool, and configure and record. `got` is what
        `get_localvlan` returned. */
    method BindVlan(t: string, networkId: string, portId: string, host: string, net: Net)
      returns (r: Outcome, ghost got: Option<LocalVlan>)
      requires Valid()
      modifies tors, tors.Repr, lv, lv.mappings, drivers`log
      ensures Valid() && tors.lvm == old(tors.lvm)
      ensures unchanged(old(tors.OtherWords(t, net.shared)))
      ensures (got, tors.cache, tors.Marks(t, net.shared)) ==
        Take(t in tors.lvm, CacheId(t, networkId, net.shared), net.shared, if got.Some? then got.value.index else None,
             old(tors.cache), old(tors.Marks(t, net.shared)))
      ensures got.None? ==> r == Failure(Unhandled(KeyError)) && unchanged(lv, lv.mappings, drivers)
      ensures got.Some? && got.value.vlan < 0 ==>
        r == Failure(NoAvaVlan) && unchanged(lv, lv.mappings, drivers)
      ensures got.Some? && got.value.vlan >= 0 ==>
        Committed(old(lv.IsExistsPvm(t, got.value.vlan, got.value.index)), store.GetTor(t), drivers.drivers,
                  old(drivers.log), drivers.log, TunnelIds(old(lv.tunnels)),
                  old(lv.allocations), old(lv.vsis), old(lv.mappings.rows),
                  lv.allocations, lv.vsis, lv.mappings.rows,
                  r, PortVlanMapping(portId, networkId, t, got.value.vlan, got.value.index), net, got.value.isNew)
    {
      var a := Allocate(t, networkId, net.shared, host);
      got := a;
      if a.None? {
        return Failure(Unhandled(KeyError)), got;
      }
      if a.value.vlan < 0 {
        return Failure(NoAvaVlan), got;
      }
      assert unchanged(lv, lv.mappings);
      r := PlaceVlan(networkId, portId, t, net, a.value);
    }

    /** `create_localvlan`: bind port `portId` of network `networkId` on
        `host` to a local VLAN of the switch above the host. `torIp` is the
        switch `get_up_tor` picked and `got` what `get_localvlan` returned.
        No switch (or an empty name), an unknown network or port is
        NotFound with nothing changed; an exhausted pool is NoAvaVlan with
        no row and no driver call; the switch is configured only when no
        mapping covers the VLAN on that interface, and a refused call
        leaves every table as it was. */
    method CreateLocalVlan(networkId: string, host: string, portId: string)
      returns (r: Outcome, ghost torIp: Option<string>, ghost got: Option<LocalVlan>)
      requires Valid()
      modifies tors, tors.Repr, lv, lv.mappings, drivers`log
      ensures Valid() && tors.lvm == old(tors.lvm)
      ensures torIp.Some? ==> torIp.value in old(tors.topologySp) && host in old(tors.topologySp)[torIp.value]
      ensures torIp.None? <==> forall t :: t in old(tors.topologySp) ==> host !in old(tors.topologySp)[t]
      ensures (torIp.None? || torIp.value == "" || old(store.GetNet(networkId)).Err? || old(store.GetPort(portId)).Err?) ==>
        r == Failure(NotFound) && got.None? && unchanged(tors, old(tors.Repr), lv, lv.mappings, drivers)
      ensures (torIp.Some? && torIp.value != "" && old(store.GetNet(networkId)).Ok? && old(store.GetPort(portId)).Ok?) ==>
        var t, shared := torIp.value, old(store.GetNet(networkId)).value.shared;
        && (got, tors.cache, tors.Marks(t, shared)) ==
           Take(t in tors.lvm, CacheId(t, networkId, shared), shared, if got.Some? then got.value.index else None,
                old(tors.cache), old(tors.Marks(t, shared)))
        && unchanged(old(tors.OtherWords(t, shared)))
      ensures got.None? && r != Failure(NotFound) ==>
        torIp.Some? && r == Failure(Unhandled(KeyError)) && unchanged(lv, lv.mappings, drivers)
      ensures got.Some? ==>
        torIp.Some? && torIp.value != "" && old(store.GetNet(networkId)).Ok? && old(store.GetPort(portId)).Ok?
      ensures got.Some? && got.value.vlan < 0 ==>
        r == Failure(NoAvaVlan) && unchanged(lv, lv.mappings, drivers)
      ensures got.Some? && got.value.vlan >= 0 ==>
        Committed(old(lv.IsExistsPvm(torIp.value, got.value.vlan, got.value.index)), store.GetTor(torIp.value),
                  drivers.drivers, old(drivers.log), drivers.log, TunnelIds(old(lv.tunnels)),
                  old(lv.allocations), old(lv.vsis), old(lv.mappings.rows),
                  lv.allocations, lv.vsis, lv.mappings.rows,
                  r, PortVlanMapping(portId, networkId, torIp.value, got.value.vlan, got.value.index),
                  old(store.GetNet(networkId)).value, got.value.isNew)
    {
      got := None;
      var up := tors.GetUpTor(host);
      torIp := up;
      if up.None? || up.value == "" {
        return Failure(NotFound), torIp, got;
      }
      var net := store.GetNet(networkId);
      var port := store.GetPort(portId);
      if net.Err? || port.Err? {
        return Failure(NotFound), torIp, got;
      }
      r, got := BindVlan(up.value, networkId, portId, host, net.value);
    }

    // ---- delete_localvlan ----

    /** Lines 260-263: the network's id on the switch goes back to its pool
        and the cache, then the VSI and allocation rows of the network on
        the switch go. A fault of the pool (no pools for the switch, an id
        past the word array, no cache key) escapes before any row goes. */
    method ReleaseVlan(networkId: string, torIp: string, vlan: nat, net: Net) returns (r: Outcome)
      requires tors.Valid()
      modifies tors, tors.Repr, lv
      ensures tors.Valid() && tors.lvm == old(tors.lvm) && lv.tunnels == old(lv.tunnels)
      ensures unchanged(old(tors.OtherWords(torIp, net.shared)))
      ensures Released(torIp in tors.lvm, WordIndex(vlan) < WordCount(PoolMax(net.shared)), torIp + networkId, vlan,
                       old(tors.cache), tors.cache, old(tors.Marks(torIp, net.shared)), tors.Marks(torIp, net.shared), r)
      ensures r.Failure? ==> unchanged(lv)
      ensures r.Success? ==> VsisDropped(old(lv.vsis), lv.vsis, torIp, net.segmentationId)
      ensures r.Success? ==> AllocationsDropped(old(lv.allocations), lv.allocations, torIp, networkId)
    {
      if torIp in tors.lvm {
        assert tors.PoolsOk(tors.lvm[torIp]);
      }
      var freed := tors.DeleteLocalVlan(networkId, torIp, vlan, net.shared);
      if freed.Err? {
        return Failure(Unhandled(freed.fault));
      }
      lv.DeleteVsi(torIp, net.segmentationId);
      lv.DeleteVlanAllocations(torIp, networkId);
      r := Success;
    }

    /** Lines 265-274: unconfigure the interface unless another mapping
        uses it (`icount` is the number of mappings on it), then drop the
        port's mapping row. */
    method Unmap(m: PortVlanMapping, vxlan: int, t: string, icount: nat, onlyIndex: bool) returns (r: Outcome)
      requires Valid()
      modifies lv.mappings, drivers`log
      ensures Valid() && tors.cache == old(tors.cache)
      ensures tors.Marks(m.torIp, true) == old(tors.Marks(m.torIp, true))
      ensures tors.Marks(m.torIp, false) == old(tors.Marks(m.torIp, false))
      ensures Unmapped(UnvlanRun(icount, drivers.drivers, old(drivers.log), t, m, vxlan, onlyIndex),
                       old(drivers.log), drivers.log, old(lv.mappings.rows), lv.mappings.rows, m.portId, r)
    {
      if icount <= 1 {
        var calls := UnvlanCalls(m.torIp, m.vlanId, m.index, vxlan, onlyIndex);
        r := SendTwo(t, calls[0], calls[1]);
        if r.Failure? {
          return;
        }
      }
      lv.DeletePortVlanMapping(m.portId);
      r := Success;
    }

    /** Lines 255-274 for mapping `m` of a network `net` on switch `tor`:
        the last port of the network on the switch frees the id, the VSI
        and the allocation rows (`freed`); the interface is unconfigured
        when no other mapping uses it; then the mapping row goes. */
    method Unbind(m: PortVlanMapping, net: Net, tor: Tor, count: nat, icount: nat) returns (r: Outcome, ghost freed: bool)
      requires Valid()
      modifies tors, tors.Repr, lv, lv.mappings, drivers`log
      ensures Valid() && lv.tunnels == old(lv.tunnels) && tors.lvm == old(tors.lvm)
      ensures unchanged(old(tors.OtherWords(m.torIp, net.shared)))
      ensures && (freed ==> count == 1)
        && (count != 1 ==>
              && tors.cache == old(tors.cache) && tors.Marks(m.torIp, net.shared) == old(tors.Marks(m.torIp, net.shared))
              && lv.allocations == old(lv.allocations) && lv.vsis == old(lv.vsis))
        && (count == 1 && !freed ==>
              r.Failure? && r.error.Unhandled? && unchanged(lv, lv.mappings, drivers))
      ensures count == 1 ==>
        Released(m.torIp in old(tors.lvm), WordIndex(m.vlanId) < WordCount(PoolMax(net.shared)), m.torIp + m.networkId,
                 m.vlanId, old(tors.cache), tors.cache, old(tors.Marks(m.torIp, net.shared)), tors.Marks(m.torIp, net.shared),
                 if freed then Success else r)
      ensures freed ==>
        && VsisDropped(old(lv.vsis), lv.vsis, m.torIp, net.segmentationId)
        && AllocationsDropped(old(lv.allocations), lv.allocations, m.torIp, m.networkId)
      ensures count != 1 || freed ==>
        Unmapped(UnvlanRun(icount, drivers.drivers, old(drivers.log),
                           tor.switchType, m, net.segmentationId, !freed),
                 old(drivers.log), drivers.log, old(lv.mappings.rows), lv.mappings.rows, m.portId, r)
    {
      var onlyIndex := true;
      freed := false;
      if count == 1 {
        r := ReleaseVlan(m.networkId, m.torIp, m.vlanId, net);
        if r.Failure? {
          return;
        }
        onlyIndex, freed := false, true;
      }
      r := Unmap(m, net.segmentationId, tor.switchType, icount, onlyIndex);
    }

    /** `delete_localvlan(id)`: release the local VLAN of port `portId`. No
        mapping for the port, an unknown network or switch is NotFound with
        nothing changed (two rows for the switch escape as
        MultipleResultsFound); otherwise as `Unbind` on the port's mapping. */
    method DeleteLocalVlan(portId: string) returns (r: Outcome, ghost freed: bool)
      requires Valid()
      modifies tors, tors.Repr, lv, lv.mappings, drivers`log
      ensures Valid() && tors.lvm == old(tors.lvm)
      ensures old(lv.GetPortVlanMapping(portId)).Err? ==>
        r == Failure(NotFound) && unchanged(tors, old(tors.Repr), lv, lv.mappings, drivers)
      ensures old(lv.GetPortVlanMapping(portId)).Ok? ==>
        var m := old(lv.GetPortVlanMapping(portId)).value;
        var net, tor := old(store.GetNet(m.networkId)), old(store.GetTor(m.torIp));
        && (net.Err? ==> r == Failure(NotFound) && unchanged(tors, old(tors.Repr), lv, lv.mappings, drivers))
        && (net.Ok? && tor.Err? ==>
              r == Failure(Caught(tor.fault)) && unchanged(tors, old(tors.Repr), lv, lv.mappings, drivers))
        && (net.Ok? && tor.Ok? ==>
              var shared, count := net.value.shared, old(lv.PvmCountByNet(m.torIp, m.networkId));
              && unchanged(old(tors.OtherWords(m.torIp, shared)))
              && (freed ==> count == 1)
              && (count != 1 ==>
                    && tors.cache == old(tors.cache) && tors.Marks(m.torIp, shared) == old(tors.Marks(m.torIp, shared))
                    && lv.allocations == old(lv.allocations) && lv.vsis == old(lv.vsis))
              && (count == 1 ==>
                    Released(m.torIp in old(tors.lvm), WordIndex(m.vlanId) < WordCount(PoolMax(shared)),
                             m.torIp + m.networkId, m.vlanId, old(tors.cache), tors.cache,
                             old(tors.Marks(m.torIp, shared)), tors.Marks(m.torIp, shared), if freed then Success else r))
              && (count == 1 && !freed ==> r.Failure? && r.error.Unhandled? && unchanged(lv, lv.mappings, drivers))
              && (freed ==>
                    && VsisDropped(old(lv.vsis), lv.vsis, m.torIp, net.value.segmentationId)
                    && AllocationsDropped(old(lv.allocations), lv.allocations, m.torIp, m.networkId))
              && (count != 1 || freed ==>
                    Unmapped(UnvlanRun(old(lv.PvmCountByTorIndex(m.torIp, m.index)), drivers.drivers, old(drivers.log),
                                       tor.value.switchType, m, net.value.segmentationId, !freed),
                             old(drivers.log), drivers.log, old(lv.mappings.rows), lv.mappings.rows, portId, r)))
    {
      freed := false;
      var pvm := lv.GetPortVlanMapping(portId);
      if pvm.Err? {
        return Failure(NotFound), freed;
      }
      var net := store.GetNet(pvm.value.networkId);
      if net.Err? {
        return Failure(NotFound), freed;
      }
      var tor := store.GetTor(pvm.value.torIp);
      if tor.Err? {
        return Failure(Caught(tor.fault)), freed;
      }
      var count := lv.PvmCountByNet(pvm.value.torIp, pvm.value.networkId);
      var icount := lv.PvmCountByTorIndex(pvm.value.torIp, pvm.value.index);
      r, freed := Unbind(pvm.value, net.value, tor.value, count, icount);
    }

    // ---- delete_tor ----

    /** One tunnel: `initialize` and `deletetunnel` through the driver of
        type `t` on switch `mgr`; once both are answered true, the tunnel's
        rows on that switch go. */
    method RemoveTunnel(mgr: string, t: string, id: int) returns (r: Outcome)
      modifies lv, drivers`log
      ensures var run := Run(drivers.drivers, old(drivers.log), t, TeardownCalls(mgr, id));
        drivers.log == old(drivers.log) + run.0 && r == Raised(run.1)
      ensures lv.allocations == old(lv.allocations) && lv.vsis == old(lv.vsis)
      ensures r.Failure? ==> lv.tunnels == old(lv.tunnels)
      ensures r.Success? ==> TunnelsDropped(old(lv.tunnels), lv.tunnels, {(mgr, id)})
    {
      r := SendTwo(t, Initialize(mgr, User, Passwd), DeleteTunnel(id));
      if r.Success? {
        lv.DeleteTunnel(mgr, id);
      }
    }

    /** Iteration `i` of lines 284-290, from the log `log0` and the
        tunnel rows `tunnels0` the loop started with. */
    method RemoveOwnTunnel(mgr: string, t: string, ts: seq<Tunnel>, i: nat,
                           ghost log0: seq<Issued>, ghost tunnels0: seq<Tunnel>) returns (r: Outcome)
      requires i < |ts|
      requires var run := OwnTeardown(drivers.drivers, log0, t, mgr, ts[..i]);
        drivers.log == log0 + run.0 && run.1 == Success
      requires TunnelsDropped(tunnels0, lv.tunnels, Pairs(Retarget(ts[..i], mgr)))
      modifies lv, drivers`log
      ensures var run := OwnTeardown(drivers.drivers, log0, t, mgr, ts[..i + 1]);
        drivers.log == log0 + run.0 && r == run.1
      ensures lv.allocations == old(lv.allocations) && lv.vsis == old(lv.vsis)
      ensures r.Failure? ==> lv.tunnels == old(lv.tunnels)
      ensures r.Success? ==> TunnelsDropped(tunnels0, lv.tunnels, Pairs(Retarget(ts[..i + 1], mgr)))
    {
      OwnTeardownStep(drivers.drivers, log0, t, mgr, ts, i);
      PairsStep(ts, i, mgr);
      r := RemoveTunnel(mgr, t, ts[i].tunnelId);
      if r.Success? {
        DroppedTwice(tunnels0, old(lv.tunnels), lv.tunnels, Pairs(Retarget(ts[..i], mgr)), {(mgr, ts[i].tunnelId)});
      }
    }

    /** Lines 284-290: remove each tunnel of `ts` from switch `mgr` of type
        `t`, dropping its rows once the switch has done so. */
    method RemoveOwnTunnels(mgr: string, t: string, ts: seq<Tunnel>) returns (r: Outcome)
      modifies lv, drivers`log
      ensures var run := OwnTeardown(drivers.drivers, old(drivers.log), t, mgr, ts);
        drivers.log == old(drivers.log) + run.0 && r == run.1
      ensures lv.allocations == old(lv.allocations) && lv.vsis == old(lv.vsis)
      ensures r.Success? ==> TunnelsDropped(old(lv.tunnels), lv.tunnels, Pairs(Retarget(ts, mgr)))
    {
      r := Success;
      var i := 0;
      assert ts[..0] == [];
      while i < |ts|
        invariant 0 <= i <= |ts| && r == Success
        invariant var run := OwnTeardown(drivers.drivers, old(drivers.log), t, mgr, ts[..i]);
          drivers.log == old(drivers.log) + run.0 && run.1 == Success
        invariant lv.allocations == old(lv.allocations) && lv.vsis == old(lv.vsis)
        invariant TunnelsDropped(old(lv.tunnels), lv.tunnels, Pairs(Retarget(ts[..i], mgr)))
      {
        r := RemoveOwnTunnel(mgr, t, ts, i, old(drivers.log), old(lv.tunnels));
        if r.Failure? {
          OwnTeardownStops(drivers.drivers, old(drivers.log), t, mgr, ts, i + 1);
          return;
        }
        i := i + 1;
      }
      assert ts[..i] == ts;
    }

    /** Lines 294-300 for one tunnel `x`: look up the type of the switch it
        is on, then remove it there. */
    method RemovePeer(x: Tunnel) returns (r: Outcome)
      requires store.Valid()
      modifies lv, drivers`log
      ensures var one := PeerOne(store.tors.rows, drivers.drivers, old(drivers.log), x);
        drivers.log == old(drivers.log) + one.0 && r == one.1
      ensures lv.allocations == old(lv.allocations) && lv.vsis == old(lv.vsis)
      ensures r.Failure? ==> lv.tunnels == old(lv.tunnels)
      ensures r.Success? ==> TunnelsDropped(old(lv.tunnels), lv.tunnels, {(x.torIp, x.tunnelId)})
    {
      var tor := store.GetTor(x.torIp);
      if tor.Err? {
        return Failure(Caught(tor.fault));
      }
      r := RemoveTunnel(x.torIp, tor.value.switchType, x.tunnelId);
    }

    /** Iteration `i` of lines 293-300, from the log `log0` and the tunnel
        rows `tunnels0` the loop started with. */
    method RemovePeerTunnel(ts: seq<Tunnel>, i: nat, ghost log0: seq<Issued>, ghost tunnels0: seq<Tunnel>)
      returns (r: Outcome)
      requires store.Valid() && i < |ts|
      requires var run := PeerTeardown(store.tors.rows, drivers.drivers, log0, ts[..i]);
        drivers.log == log0 + run.0 && run.1 == Success
      requires TunnelsDropped(tunnels0, lv.tunnels, Pairs(ts[..i]))
      modifies lv, drivers`log
      ensures var run := PeerTeardown(store.tors.rows, drivers.drivers, log0, ts[..i + 1]);
        drivers.log == log0 + run.0 && r == run.1
      ensures lv.allocations == old(lv.allocations) && lv.vsis == old(lv.vsis)
      ensures r.Failure? ==> lv.tunnels == old(lv.tunnels)
      ensures r.Success? ==> TunnelsDropped(tunnels0, lv.tunnels, Pairs(ts[..i + 1]))
    {
      PairsNext(ts, i);
      r := RemovePeer(ts[i]);
      PeerTeardownNext(store.tors.rows, drivers.drivers, log0, ts, i, drivers.log, r);
      if r.Success? {
        DroppedTwice(tunnels0, old(lv.tunnels), lv.tunnels, Pairs(ts[..i]), {(ts[i].torIp, ts[i].tunnelId)});
      }
    }

    /** Lines 293-300: remove each tunnel of `ts` from the switch it is on. */
    method RemovePeerTunnels(ts: seq<Tunnel>) returns (r: Outcome)
      requires store.Valid()
      modifies lv, drivers`log
      ensures var run := PeerTeardown(store.tors.rows, drivers.drivers, old(drivers.log), ts);
        drivers.log == old(drivers.log) + run.0 && r == run.1
      ensures lv.allocations == old(lv.allocations) && lv.vsis == old(lv.vsis)
      ensures r.Success? ==> TunnelsDropped(old(lv.tunnels), lv.tunnels, Pairs(ts))
    {
      r := Success;
      var i := 0;
      assert ts[..0] == [];
      while i < |ts|
        invariant 0 <= i <= |ts| && r == Success
        invariant var run := PeerTeardown(store.tors.rows, drivers.drivers, old(drivers.log), ts[..i]);
          drivers.log == old(drivers.log) + run.0 && run.1 == Success
        invariant lv.allocations == old(lv.allocations) && lv.vsis == old(lv.vsis)
        invariant TunnelsDropped(old(lv.tunnels), lv.tunnels, Pairs(ts[..i]))
      {
        r := RemovePeerTunnel(ts, i, old(drivers.log), old(lv.tunnels));
        if r.Failure? {
          PeerTeardownStops(store.tors.rows, drivers.drivers, old(drivers.log), ts, i + 1);
          return;
        }
        i := i + 1;
      }
      assert ts[..i] == ts;
    }

    /** Lines 283-300 for the switch row `tor`: its own tunnels are removed
        from it, its row goes, then the tunnels of the other switches
        towards it are removed from them. On success no tunnel row on the
        switch or towards its tunnel source is left. */
    method Decommission(tor: Tor) returns (r: Outcome)
      requires Valid()
      modifies store.tors, lv, drivers`log
      ensures Valid()
      ensures lv.allocations == old(lv.allocations) && lv.vsis == old(lv.vsis)
      ensures var (t1, t2) := old(lv.GetTunnelWithTor(tor.torIp, tor.tunnelSrcIp));
        var own := OwnTeardown(drivers.drivers, old(drivers.log), tor.switchType, tor.torIp, t1);
        && (own.1.Failure? ==> r == own.1 && drivers.log == old(drivers.log) + own.0 &&
                               store.tors.rows == old(store.tors.rows))
        && (own.1.Success? ==>
              && (forall x :: x in store.tors.rows <==> x in old(store.tors.rows) && x.torIp != tor.torIp)
              && var peer := PeerTeardown(store.tors.rows, drivers.drivers, old(drivers.log) + own.0, t2);
                 drivers.log == old(drivers.log) + own.0 + peer.0 && r == peer.1)
        && (r.Success? ==> TunnelsDropped(old(lv.tunnels), lv.tunnels, Pairs(Retarget(t1, tor.torIp)) + Pairs(t2)))
      ensures r.Success? ==> forall x :: x in lv.tunnels ==> x.torIp != tor.torIp && x.dstAddr != tor.tunnelSrcIp
    {
      var (t1, t2) := lv.GetTunnelWithTor(tor.torIp, tor.tunnelSrcIp);
      r := RemoveOwnTunnels(tor.torIp, tor.switchType, t1);
      if r.Failure? {
        return;
      }
      ghost var between := lv.tunnels;
      store.DeleteTor(tor.torIp);
      r := RemovePeerTunnels(t2);
      if r.Success? {
        DroppedTwice(old(lv.tunnels), between, lv.tunnels, Pairs(Retarget(t1, tor.torIp)), Pairs(t2));
        SwitchGone(old(lv.tunnels), lv.tunnels, tor.torIp, tor.tunnelSrcIp, t1, t2);
      }
    }

    /** `delete_tor(id)`: remove switch `id` and its tunnel mesh. An unknown
        switch is NotFound with nothing changed; two rows for it escape as
        MultipleResultsFound. */
    method DeleteTor(id: string) returns (r: Outcome)
      requires Valid()
      modifies store.tors, lv, drivers`log
      ensures Valid()
      ensures old(store.GetTor(id)).Err? ==>
        r == Failure(Caught(old(store.GetTor(id)).fault)) && unchanged(store.tors, lv, drivers)
      ensures old(store.GetTor(id)).Ok? ==>
        var tor := old(store.GetTor(id)).value;
        var (t1, t2) := old(lv.GetTunnelWithTor(tor.torIp, tor.tunnelSrcIp));
        var own := OwnTeardown(drivers.drivers, old(drivers.log), tor.switchType, tor.torIp, t1);
        && lv.allocations == old(lv.allocations) && lv.vsis == old(lv.vsis)
        && (own.1.Failure? ==> r == own.1 && drivers.log == old(drivers.log) + own.0 &&
                               store.tors.rows == old(store.tors.rows))
        && (own.1.Success? ==>
              && (forall x :: x in store.tors.rows <==> x in old(store.tors.rows) && x.torIp != tor.torIp)
              && var peer := PeerTeardown(store.tors.rows, drivers.drivers, old(drivers.log) + own.0, t2);
                 drivers.log == old(drivers.log) + own.0 + peer.0 && r == peer.1)
        && (r.Success? ==> TunnelsDropped(old(lv.tunnels), lv.tunnels, Pairs(Retarget(t1, tor.torIp)) + Pairs(t2)))
      ensures old(store.GetTor(id)).Ok? && r.Success? ==>
        var tor := old(store.GetTor(id)).value;
        && (forall x :: x in store.tors.rows <==> x in old(store.tors.rows) && x.torIp != id)
        && (forall x :: x in lv.tunnels ==> x in old(lv.tunnels) && x.torIp != id && x.dstAddr != tor.tunnelSrcIp)
    {
      var tor := store.GetTor(id);
      if tor.Err? {
        return Failure(Caught(tor.fault));
      }
      r := Decommission(tor.value);
    }

    // ---- create_sync ----

    /** The loop of lines 193-195 over `data["network"]`, into the emptied network table. */
    method SyncNets(data: Json) returns (ok: bool)
      requires store.Valid() && store.nets.rows == []
      modifies store.nets
      ensures store.Valid()
      ensures (store.nets.rows, ok) == Section(data, "network", NetItem, NetId)
    {
      var section := Member(data, "network");
      if section.Err? {
        return false;
      }
      var listed := Items(section.value);
      if listed.Err? {
        return false;
      }
      var items := listed.value;
      var i := 0;
      assert items[..0] == [];
      while i < |items|
        invariant 0 <= i <= |items| && store.Valid()
        invariant Loaded(items[..i], NetItem, NetId) == (store.nets.rows, true)
      {
        LoadedStep(items, NetItem, NetId, i);
        var n := NetFromBody(JObject(map["network" := items[i]]));
        if n.Err? {
          LoadedStops(items, NetItem, NetId, i + 1);
          return false;
        }
        var saved := store.SaveNet(n.value);
        if saved.Err? {
          LoadedStops(items, NetItem, NetId, i + 1);
          return false;
        }
        i := i + 1;
      }
      assert items[..i] == items;
      ok := true;
    }

    /** The loop of lines 196-198 over `data["port"]`, into the emptied port table. */
    method SyncPorts(data: Json) returns (ok: bool)
      requires store.Valid() && store.ports.rows == []
      modifies store.ports
      ensures store.Valid()
      ensures (store.ports.rows, ok) == Section(data, "port", PortItem, PortId)
    {
      var section := Member(data, "port");
      if section.Err? {
        return false;
      }
      var listed := Items(section.value);
      if listed.Err? {
        return false;
      }
      var items := listed.value;
      var i := 0;
      assert items[..0] == [];
      while i < |items|
        invariant 0 <= i <= |items| && store.Valid()
        invariant Loaded(items[..i], PortItem, PortId) == (store.ports.rows, true)
      {
        LoadedStep(items, PortItem, PortId, i);
        var p := PortFromBody(JObject(map["port" := items[i]]));
        if p.Err? {
          LoadedStops(items, PortItem, PortId, i + 1);
          return false;
        }
        var saved := store.SavePort(p.value);
        if saved.Err? {
          LoadedStops(items, PortItem, PortId, i + 1);
          return false;
        }
        i := i + 1;
      }
      assert items[..i] == items;
      ok := true;
    }

    /** The loop of lines 199-201 over `data["subnet"]`, into the emptied subnet table. */
    method SyncSubnets(data: Json) returns (ok: bool)
      requires store.Valid() && store.subnets.rows == []
      modifies store.subnets
      ensures store.Valid()
      ensures (store.subnets.rows, ok) == Section(data, "subnet", SubnetItem, SubnetId)
    {
      var section := Member(data, "subnet");
      if section.Err? {
        return false;
      }
      var listed := Items(section.value);
      if listed.Err? {
        return false;
      }
      var items := listed.value;
      var i := 0;
      assert items[..0] == [];
      while i < |items|
        invariant 0 <= i <= |items| && store.Valid()
        invariant Loaded(items[..i], SubnetItem, SubnetId) == (store.subnets.rows, true)
      {
        LoadedStep(items, SubnetItem, SubnetId, i);
        var sn := SubnetFromBody(JObject(map["subnet" := items[i]]));
        if sn.Err? {
          LoadedStops(items, SubnetItem, SubnetId, i + 1);
          return false;
        }
        var saved := store.SaveSubnet(sn.value);
        if saved.Err? {
          LoadedStops(items, SubnetItem, SubnetId, i + 1);
          return false;
        }
        i := i + 1;
      }
      assert items[..i] == items;
      ok := true;
    }

    /** `create_sync`: replace the networks, ports and subnets tables by
        those of `body["sina_openstack"]`. The tables are emptied first; a
        fault anywhere is a bad request and leaves what was saved so far. */
    method CreateSync(body: Json) returns (r: Outcome)
      requires Valid()
      modifies store.nets, store.ports, store.subnets
      ensures Valid()
      ensures var s := Sync(body);
        && store.nets.rows == s.nets && store.ports.rows == s.ports && store.subnets.rows == s.subnets
        && r == (if s.ok then Success else Failure(BadRequest))
    {
      store.ClearNets();
      store.ClearPorts();
      store.ClearSubnets();
      var data := Member(body, "sina_openstack");
      if data.Err? {
        return Failure(BadRequest);
      }
      var ok := SyncNets(data.value);
      if !ok {
        return Failure(BadRequest);
      }
      ok := SyncPorts(data.value);
      if !ok {
        return Failure(BadRequest);
      }
      ok := SyncSubnets(data.value);
      r := if ok then Success else Failure(BadRequest);
    }

    // ---- create_tor ----

    /** `status, tunnel_id = self.switch_drivers[t].newtunnel(from, to)`
        and its guard; `id` is the id of the tunnel made, whose row on
        `mgr` the caller saves. */
    method OpenTunnel(t: string, mgr: string, from: string, to: string) returns (r: Outcome, id: int)
      modifies drivers`log
      ensures var s := NewOne(drivers.drivers, old(drivers.log), t, mgr, from, to);
        && drivers.log == old(drivers.log) + s.sent && r == s.out
        && (r.Success? ==> s.saved == [Tunnel(mgr, to, id)])
    {
      var reply := drivers.Invoke(t, NewTunnel(from, to));
      if reply.Err? {
        return Failure(Unhandled(KeyError)), 0;
      }
      if reply.value.Raise? {
        return Failure(Unhandled(reply.value.fault)), 0;
      }
      id := reply.value.tunnelId;
      r := if reply.value.status then Success else Failure(TorConfigError);
    }

    /** Iteration `i` of lines 319-330, from the log `log0` and the tunnel
        rows `tunnels0` the loop started with; `ids` are the tunnel ids
        gathered so far. */
    method ForwardTunnel(t: string, mgr: string, src: string, peers: seq<string>, i: nat,
                         ghost log0: seq<Issued>, ghost tunnels0: seq<Tunnel>, ids: seq<int>)
      returns (r: Outcome, ids': seq<int>)
      requires i < |peers|
      requires var f := Forward(drivers.drivers, log0, t, mgr, src, peers[..i]);
        && drivers.log == log0 + f.sent && lv.tunnels == tunnels0 + f.saved
        && f.out == Success && ids == TunnelIds(f.saved)
      modifies lv, drivers`log
      ensures var f := Forward(drivers.drivers, log0, t, mgr, src, peers[..i + 1]);
        && drivers.log == log0 + f.sent && lv.tunnels == tunnels0 + f.saved
        && r == f.out && ids' == TunnelIds(f.saved)
      ensures lv.allocations == old(lv.allocations) && lv.vsis == old(lv.vsis)
    {
      ForwardStep(drivers.drivers, log0, t, mgr, src, peers, i);
      if peers[i] == src {
        return Success, ids;
      }
      var id;
      r, id := OpenTunnel(t, mgr, src, peers[i]);
      ids' := ids;
      if r.Success? {
        lv.SaveTunnel(Tunnel(mgr, peers[i], id));
        ids' := ids + [id];
      }
      ForwardNext(drivers.drivers, log0, t, mgr, src, peers, i, drivers.log, tunnels0, lv.tunnels, ids', r);
    }

    /** Lines 319-330: a tunnel from the new switch `mgr` of type `t` to
        every peer address but its source `src`, each saved once the
        switch made it; the ids gathered. */
    method BuildForward(t: string, mgr: string, src: string, peers: seq<string>) returns (r: Outcome, ids: seq<int>)
      modifies lv, drivers`log
      ensures var f := Forward(drivers.drivers, old(drivers.log), t, mgr, src, peers);
        && drivers.log == old(drivers.log) + f.sent && lv.tunnels == old(lv.tunnels) + f.saved
        && r == f.out && ids == TunnelIds(f.saved)
      ensures lv.allocations == old(lv.allocations) && lv.vsis == old(lv.vsis)
    {
      r, ids := Success, [];
      var i := 0;
      assert peers[..0] == [];
      while i < |peers|
        invariant 0 <= i <= |peers| && r == Success
        invariant var f := Forward(drivers.drivers, old(drivers.log), t, mgr, src, peers[..i]);
          && drivers.log == old(drivers.log) + f.sent && lv.tunnels == old(lv.tunnels) + f.saved
          && f.out == Success && ids == TunnelIds(f.saved)
        invariant lv.allocations == old(lv.allocations) && lv.vsis == old(lv.vsis)
      {
        r, ids := ForwardTunnel(t, mgr, src, peers, i, old(drivers.log), old(lv.tunnels), ids);
        if r.Failure? {
          ForwardStops(drivers.drivers, old(drivers.log), t, mgr, src, peers, i + 1);
          return;
        }
        i := i + 1;
      }
      assert peers[..i] == peers;
    }

    /** Lines 344-352: make the tunnel on `mgr` through the driver of `t`,
        bind it to `vxlans`, and save its row. */
    method BindTunnel(t: string, mgr: string, from: string, to: string, vxlans: seq<int>) returns (r: Outcome)
      modifies lv, drivers`log
      ensures var s := Bound(drivers.drivers, old(drivers.log), t, mgr, from, to, vxlans);
        drivers.log == old(drivers.log) + s.sent && lv.tunnels == old(lv.tunnels) + s.saved && r == s.out
      ensures lv.allocations == old(lv.allocations) && lv.vsis == old(lv.vsis)
    {
      var id;
      r, id := OpenTunnel(t, mgr, from, to);
      if r.Failure? {
        assert lv.tunnels == old(lv.tunnels) + [];
        return;
      }
      ghost var log1 := drivers.log;
      r := Send(t, EnsureVxlanWithTunnel(vxlans, [id]));
      if r.Success? {
        lv.SaveTunnel(Tunnel(mgr, to, id));
      } else {
        assert lv.tunnels == old(lv.tunnels) + [];
      }
      ghost var made := NewOne(drivers.drivers, old(drivers.log), t, mgr, from, to);
      ghost var ensure := Run(drivers.drivers, log1, t, [EnsureVxlanWithTunnel(vxlans, [id])]);
      assert drivers.log == old(drivers.log) + (made.sent + ensure.0);
    }

    /** Lines 341-352 for the switch row `tor` of type `t`. */
    method RejoinTunnel(tor: Tor, t: string, vxlans: seq<int>, src: string) returns (r: Outcome)
      modifies lv, drivers`log
      ensures var s := Rejoin(drivers.drivers, old(drivers.log), tor, t, vxlans, src);
        drivers.log == old(drivers.log) + s.sent && lv.tunnels == old(lv.tunnels) + s.saved && r == s.out
      ensures lv.allocations == old(lv.allocations) && lv.vsis == old(lv.vsis)
    {
      r := Send(tor.switchType, Initialize(tor.torIp, User, Passwd));
      if r.Failure? {
        assert lv.tunnels == old(lv.tunnels) + [];
        return;
      }
      ghost var init := Run(drivers.drivers, old(drivers.log), tor.switchType, [Initialize(tor.torIp, User, Passwd)]);
      r := BindTunnel(t, tor.torIp, tor.tunnelSrcIp, src, vxlans);
      ThenAppends(old(drivers.log), Sweep(init.0, [], Success),
                  Bound(drivers.drivers, old(drivers.log) + init.0, t, tor.torIp, tor.tunnelSrcIp, src, vxlans),
                  drivers.log, old(lv.tunnels), lv.tunnels);
    }

    /** Lines 337-352 for the switch row `tor` that existed before. */
    method ReverseTunnel(tor: Tor, src: string) returns (r: Outcome)
      requires store.Valid()
      modifies lv, drivers`log
      ensures var s := Reverse(store.tors.rows, lv.vsis, drivers.drivers, old(drivers.log), src, tor);
        drivers.log == old(drivers.log) + s.sent && lv.tunnels == old(lv.tunnels) + s.saved && r == s.out
      ensures lv.allocations == old(lv.allocations) && lv.vsis == old(lv.vsis)
    {
      var vxlans := Vxlans(lv.GetVsisByTor(tor.torIp));
      var found := store.GetTor(tor.torIp);
      if found.Err? {
        assert drivers.log == old(drivers.log) + [] && lv.tunnels == old(lv.tunnels) + [];
        return Failure(Unhandled(found.fault));
      }
      r := RejoinTunnel(tor, found.value.switchType, vxlans, src);
    }

    /** One iteration of lines 335-352, for the switch row `tor`, after the
        switches `order`, from the log `log0` and the tunnel rows
        `tunnels0` the loop started with. */
    method ReverseStep(tor: Tor, src: string, ghost order: seq<Tor>, ghost log0: seq<Issued>,
                       ghost tunnels0: seq<Tunnel>) returns (r: Outcome)
      requires store.Valid()
      requires var b := Backward(store.tors.rows, lv.vsis, drivers.drivers, log0, src, order);
        drivers.log == log0 + b.sent && lv.tunnels == tunnels0 + b.saved && b.out == Success
      modifies lv, drivers`log
      ensures var b := Backward(store.tors.rows, lv.vsis, drivers.drivers, log0, src, order + [tor]);
        drivers.log == log0 + b.sent && lv.tunnels == tunnels0 + b.saved && r == b.out
      ensures lv.allocations == old(lv.allocations) && lv.vsis == old(lv.vsis)
    {
      r := ReverseTunnel(tor, src);
      BackwardNext(store.tors.rows, lv.vsis, drivers.drivers, log0, src, order, tor,
                   drivers.log, tunnels0, lv.tunnels, r);
    }

    /** Lines 335-352: every switch of `existing` in turn, in an order the
        dictionary chooses (`order`, those visited), up to the first
        failure. */
    method BuildReverse(existing: map<string, Tor>, src: string) returns (r: Outcome, ghost order: seq<Tor>)
      requires store.Valid()
      requires forall ip :: ip in existing ==> existing[ip].torIp == ip
      modifies lv, drivers`log
      ensures Visits(order, existing) && (r.Success? ==> Enumerates(order, existing))
      ensures var b := Backward(store.tors.rows, lv.vsis, drivers.drivers, old(drivers.log), src, order);
        drivers.log == old(drivers.log) + b.sent && lv.tunnels == old(lv.tunnels) + b.saved && r == b.out
      ensures lv.allocations == old(lv.allocations) && lv.vsis == old(lv.vsis)
    {
      r, order := Success, [];
      var left := existing.Keys;
      while left != {}
        invariant Visiting(order, existing, left) && r == Success
        invariant var b := Backward(store.tors.rows, lv.vsis, drivers.drivers, old(drivers.log), src, order);
          drivers.log == old(drivers.log) + b.sent && lv.tunnels == old(lv.tunnels) + b.saved && b.out == Success
        invariant lv.allocations == old(lv.allocations) && lv.vsis == old(lv.vsis)
        decreases left
      {
        var ip := Any(left);
        r := ReverseStep(existing[ip], src, order, old(drivers.log), old(lv.tunnels));
        VisitingNext(order, existing, left, ip);
        order := order + [existing[ip]];
        left := left - {ip};
        if r.Failure? {
          return;
        }
      }
    }

    /** Lines 313-333: initialize the new switch, make its tunnels to the
        peers and bind them to its VXLANs. */
    method Provision(t: string, src: string, mgr: string, peers: seq<string>) returns (r: Outcome)
      modifies lv, drivers`log
      ensures var p := Provisioned(lv.vsis, drivers.drivers, old(drivers.log), t, src, mgr, peers);
        drivers.log == old(drivers.log) + p.sent && lv.tunnels == old(lv.tunnels) + p.saved && r == p.out
      ensures lv.allocations == old(lv.allocations) && lv.vsis == old(lv.vsis)
    {
      r := Send(t, Initialize(mgr, User, Passwd));
      if r.Failure? {
        assert lv.tunnels == old(lv.tunnels) + [];
        return;
      }
      ghost var init := Run(drivers.drivers, old(drivers.log), t, [Initialize(mgr, User, Passwd)]);
      var vxlans := Vxlans(lv.GetVsisByTor(mgr));
      var ids;
      r, ids := BuildForward(t, mgr, src, peers);
      ghost var f := Forward(drivers.drivers, old(drivers.log) + init.0, t, mgr, src, peers);
      ghost var fwd := Then(Sweep(init.0, [], Success), f);
      assert old(lv.tunnels) + [] == old(lv.tunnels) && fwd.saved == f.saved;
      ThenAppends(old(drivers.log), Sweep(init.0, [], Success), f, drivers.log, old(lv.tunnels), lv.tunnels);
      if r.Failure? {
        return;
      }
      ghost var log1 := drivers.log;
      r := Send(t, EnsureVxlanWithTunnel(vxlans, ids));
      ghost var ensure := Run(drivers.drivers, log1, t, [EnsureVxlanWithTunnel(vxlans, ids)]);
      assert drivers.log == old(drivers.log) + (fwd.sent + ensure.0);
    }

    /** `create_tor`: add the switch of type `t` with tunnel source `src`
        and management address `mgr` to the mesh. `peers` are the tunnel
        endpoints the agent reports for `src`. The switch is initialized, a
        tunnel is made from it to every peer but itself and bound to its
        VXLANs, its row is saved, and then every switch that existed before
        gets a tunnel towards it, in the order `order` in which the
        dictionary of switches is visited. Nothing is caught: a fault
        escapes, and what was done before it stays. */
    method CreateTor(t: string, src: string, mgr: string, peers: seq<string>) returns (r: Outcome, ghost order: seq<Tor>)
      requires Valid()
      modifies store.tors, lv, drivers`log
      ensures Valid()
      ensures Visits(order, old(store.GetTors())) && (r.Success? ==> Enumerates(order, old(store.GetTors())))
      ensures var (c, added) := Creation(old(store.tors.rows), old(lv.vsis), drivers.drivers, old(drivers.log),
                                         t, src, mgr, peers, order);
        && drivers.log == old(drivers.log) + c.sent && lv.tunnels == old(lv.tunnels) + c.saved && r == c.out
        && store.tors.rows == old(store.tors.rows) + (if added then [Tor(mgr, src, t)] else [])
      ensures lv.allocations == old(lv.allocations) && lv.vsis == old(lv.vsis)
    {
      var existing := store.GetTors();
      order := [];
      r := Provision(t, src, mgr, peers);
      if r.Failure? {
        assert store.tors.rows == old(store.tors.rows) + [];
        return;
      }
      ghost var bound := Provisioned(old(lv.vsis), drivers.drivers, old(drivers.log), t, src, mgr, peers);
      var saved := store.SaveTor(Tor(mgr, src, t));
      if saved.Err? {
        assert store.tors.rows == old(store.tors.rows) + [];
        return Failure(Unhandled(DuplicateEntry)), [];
      }
      ghost var log2 := drivers.log;
      r, order := BuildReverse(existing, src);
      ghost var back := Backward(store.tors.rows, lv.vsis, drivers.drivers, log2, src, order);
      ThenAppends(old(drivers.log), bound, back, drivers.log, old(lv.tunnels), lv.tunnels);
    }
  }
}
