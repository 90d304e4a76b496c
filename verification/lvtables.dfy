/** The local-VLAN tables of `models_lv.py`: VLAN allocations, switch
    tunnels, port-to-VLAN mappings and VSIs. The first, second and last
    have an auto-increment id as primary key, so a save never clashes and
    the id is left out of the rows; the mapping table is keyed by port. */
module LvTables {
  import opened Faults
  import opened Rows
  import opened Text

  /** A row of `sapi_vlan_allocations`: `vlanId` is allocated to network
      `networkId` on switch `torIp`, from the shared or unshared pool. */
  datatype VlanAllocation = VlanAllocation(networkId: string, torIp: string, vlanId: nat,
                                           isAllocated: bool, shared: bool)

  /** A row of `sapi_tor_tunnels`: tunnel `tunnelId` on `torIp` towards `dstAddr`. */
  datatype Tunnel = Tunnel(torIp: string, dstAddr: string, tunnelId: int)

  /** A row of `sapi_port_vlan_mapping`; `portId` is the primary key and
      `index` is the switch interface index, NULL when it is unknown. */
  datatype PortVlanMapping = PortVlanMapping(portId: string, networkId: string, torIp: string,
                                             vlanId: nat, index: Option<int>)

  /** A row of `sapi_tor_vsis`: VXLAN `vxlan` has a VSI on `torIp`. */
  datatype Vsi = Vsi(torIp: string, vxlan: int)

  function MappingPort(m: PortVlanMapping): string { m.portId }

  /** The VSI rows of `vsis` on switch `torIp`, in table order. */
  function VsisOn(vsis: seq<Vsi>, torIp: string): (r: seq<Vsi>)
    ensures forall v :: v in r <==> v in vsis && v.torIp == torIp
    ensures |r| <= |vsis|
  {
    FilterMembers(vsis, (v: Vsi) => v.torIp == torIp);
    Filter(vsis, (v: Vsi) => v.torIp == torIp)
  }

  /** The four tables. `get_vlan_allocations` and `get_tunnnels` read
      `allocations` and `tunnels` whole. */
  class LvStore {
    var allocations: seq<VlanAllocation>
    var tunnels: seq<Tunnel>
    var vsis: seq<Vsi>
    const mappings: KeyedTable<PortVlanMapping, string>

    ghost predicate Valid()
      reads mappings
    {
      mappings.key == MappingPort && mappings.Valid()
    }

    constructor()
      ensures Valid() && fresh(mappings)
      ensures allocations == [] && tunnels == [] && vsis == [] && mappings.rows == []
    {
      allocations := [];
      tunnels := [];
      vsis := [];
      mappings := new KeyedTable(MappingPort);
    }

    // ---- VLAN allocations ----

    /** `save_vlan_allocations`: the row is appended. */
    method SaveVlanAllocation(va: VlanAllocation)
      modifies this
      ensures allocations == old(allocations) + [va]
      ensures tunnels == old(tunnels) && vsis == old(vsis)
    {
      allocations := allocations + [va];
    }

    /** `delete_vlan_allocations`: every row of the network on the switch
        goes, from either pool; the others stay, in order. */
    method DeleteVlanAllocations(torIp: string, networkId: string)
      modifies this
      ensures allocations == Filter(old(allocations), (a: VlanAllocation) => !(a.torIp == torIp && a.networkId == networkId))
      ensures forall a :: a in allocations <==>
        a in old(allocations) && !(a.torIp == torIp && a.networkId == networkId)
      ensures tunnels == old(tunnels) && vsis == old(vsis)
    {
      var keep := (a: VlanAllocation) => !(a.torIp == torIp && a.networkId == networkId);
      FilterMembers(allocations, keep);
      allocations := Filter(allocations, keep);
    }

    // ---- tunnels ----

    /** `save_tunnel`: the row is appended. */
    method SaveTunnel(t: Tunnel)
      modifies this
      ensures tunnels == old(tunnels) + [t]
      ensures allocations == old(allocations) && vsis == old(vsis)
    {
      tunnels := tunnels + [t];
    }

    /** `delete_tunnel`: the rows of that tunnel id on that switch go. */
    method DeleteTunnel(torIp: string, tunnelId: int)
      modifies this
      ensures tunnels == Filter(old(tunnels), (t: Tunnel) => !(t.torIp == torIp && t.tunnelId == tunnelId))
      ensures forall t :: t in tunnels <==>
        t in old(tunnels) && !(t.torIp == torIp && t.tunnelId == tunnelId)
      ensures allocations == old(allocations) && vsis == old(vsis)
    {
      var keep := (t: Tunnel) => !(t.torIp == torIp && t.tunnelId == tunnelId);
      FilterMembers(tunnels, keep);
      tunnels := Filter(tunnels, keep);
    }

    /** `get_tunnel_with_tor`: the tunnels configured ON `torIp`, and the
        tunnels (on any switch) whose far end is `dstAddr`. */
    function GetTunnelWithTor(torIp: string, dstAddr: string): (r: (seq<Tunnel>, seq<Tunnel>))
      reads this
      ensures forall t :: t in r.0 <==> t in tunnels && t.torIp == torIp
      ensures forall t :: t in r.1 <==> t in tunnels && t.dstAddr == dstAddr
      ensures forall t :: multiset(r.0)[t] == if t.torIp == torIp then multiset(tunnels)[t] else 0
    {
      var on := (t: Tunnel) => t.torIp == torIp;
      var towards := (t: Tunnel) => t.dstAddr == dstAddr;
      FilterMembers(tunnels, on);
      FilterMembers(tunnels, towards);
      assert forall t :: multiset(Filter(tunnels, on))[t] == if t.torIp == torIp then multiset(tunnels)[t] else 0 by {
        forall t
          ensures multiset(Filter(tunnels, on))[t] == if t.torIp == torIp then multiset(tunnels)[t] else 0
        {
          FilterMultiset(tunnels, on, t);
        }
      }
      (Filter(tunnels, on), Filter(tunnels, towards))
    }

    // ---- VSIs ----

    /** `save_vsi`: the row is appended. */
    method SaveVsi(v: Vsi)
      modifies this
      ensures vsis == old(vsis) + [v]
      ensures allocations == old(allocations) && tunnels == old(tunnels)
    {
      vsis := vsis + [v];
    }

    /** `delete_vsi`: the rows of that VXLAN on that switch go. */
    method DeleteVsi(torIp: string, vxlan: int)
      modifies this
      ensures vsis == Filter(old(vsis), (v: Vsi) => !(v.torIp == torIp && v.vxlan == vxlan))
      ensures forall v :: v in vsis <==> v in old(vsis) && !(v.torIp == torIp && v.vxlan == vxlan)
      ensures allocations == old(allocations) && tunnels == old(tunnels)
    {
      var keep := (v: Vsi) => !(v.torIp == torIp && v.vxlan == vxlan);
      FilterMembers(vsis, keep);
      vsis := Filter(vsis, keep);
    }

    /** `get_vsis_by_tor`: the VSIs on `torIp`, in scan order. */
    function GetVsisByTor(torIp: string): (r: seq<Vsi>)
      reads this
      ensures forall v :: v in r <==> v in vsis && v.torIp == torIp
      ensures |r| <= |vsis|
    {
      VsisOn(vsis, torIp)
    }

    // ---- port-to-VLAN mappings ----

    /** `save_port_vlan_mapping`: a second mapping for one port is a
        duplicate key, and nothing is written. */
    method SavePortVlanMapping(m: PortVlanMapping) returns (r: Result<()>)
      requires Valid()
      modifies mappings
      ensures Valid()
      ensures r == Err(DuplicateEntry) <==>
        exists i :: 0 <= i < |old(mappings.rows)| && old(mappings.rows)[i].portId == m.portId
      ensures r.Err? ==> r == Err(DuplicateEntry) && mappings.rows == old(mappings.rows)
      ensures r.Ok? ==> mappings.rows == old(mappings.rows) + [m]
    {
      r := mappings.Save(m);
    }

    /** `delete_port_vlan_mapping`: exactly the port's row goes; an
        absent port is a no-op. */
    method DeletePortVlanMapping(portId: string)
      requires Valid()
      modifies mappings
      ensures Valid()
      ensures forall m :: m in mappings.rows <==> m in old(mappings.rows) && m.portId != portId
      ensures (forall i :: 0 <= i < |old(mappings.rows)| ==> old(mappings.rows)[i].portId != portId) ==>
        mappings.rows == old(mappings.rows)
    {
      mappings.Delete(KeyIs(MappingPort, portId));
    }

    /** `get_port_vlan_mapping`: the port's row, or `NoResultFound`. */
    function GetPortVlanMapping(portId: string): (r: Result<PortVlanMapping>)
      requires Valid()
      reads mappings
      ensures r.Ok? ==> r.value in mappings.rows && r.value.portId == portId
      ensures r.Err? ==> r == Err(NoResultFound)
      ensures r.Err? <==> forall i :: 0 <= i < |mappings.rows| ==> mappings.rows[i].portId != portId
    {
      mappings.GetByKey(portId);
      mappings.Get(KeyIs(MappingPort, portId))
    }

    /** `get_pvm_count_by_net`: how many mappings put ports of the network
        on the switch. */
    function PvmCountByNet(torIp: string, networkId: string): (n: nat)
      reads mappings
      ensures n == |set i: nat | i < |mappings.rows| && mappings.rows[i].torIp == torIp
                                 && mappings.rows[i].networkId == networkId|
    {
      var sel := (m: PortVlanMapping) => m.torIp == torIp && m.networkId == networkId;
      assert Selected(mappings.rows, sel) == set i: nat | i < |mappings.rows| && mappings.rows[i].torIp == torIp
                                                         && mappings.rows[i].networkId == networkId;
      mappings.Count(sel)
    }

    /** `get_pvm_count_by_tor_index`: how many mappings use that interface
        of the switch. */
    function PvmCountByTorIndex(torIp: string, index: Option<int>): (n: nat)
      reads mappings
      ensures n == |set i: nat | i < |mappings.rows| && mappings.rows[i].torIp == torIp
                                 && mappings.rows[i].index == index|
    {
      var sel := (m: PortVlanMapping) => m.torIp == torIp && m.index == index;
      assert Selected(mappings.rows, sel) == set i: nat | i < |mappings.rows| && mappings.rows[i].torIp == torIp
                                                         && mappings.rows[i].index == index;
      mappings.Count(sel)
    }

    /** `is_exists_port_vlan_mapping`: whether some mapping puts that VLAN
        on that interface of the switch. */
    function IsExistsPvm(torIp: string, vlanId: nat, index: Option<int>): (b: bool)
      reads mappings
      ensures b <==> exists i :: 0 <= i < |mappings.rows| && mappings.rows[i].torIp == torIp
                                 && mappings.rows[i].vlanId == vlanId && mappings.rows[i].index == index
    {
      mappings.Count((m: PortVlanMapping) => m.torIp == torIp && m.vlanId == vlanId && m.index == index) > 0
    }
  }
}
