/** The provisioned-resource tables of `models.py`: networks, switches
    (ToRs), ports and subnets, each a table of rows in scan order. */
module Tables {
  import opened Faults
  import opened Rows

  /** A row of `sapi_provisioned_nets`; `networkId` is the primary key. */
  datatype Net = Net(networkId: string, tenantId: string, segmentationId: int,
                     segmentationType: string, adminStateUp: bool, shared: bool)

  /** A row of `sapi_tor`; the primary key is the whole triple, so one
      management address may appear on several rows. */
  datatype Tor = Tor(torIp: string, tunnelSrcIp: string, switchType: string)

  /** A row of `sapi_provisioned_ports`; `portId` is the primary key. */
  datatype Port = Port(portId: string, networkId: string, tenantId: string,
                       subnetId: string, deviceId: string, deviceOwner: string,
                       status: string, adminStateUp: bool, bindingHostId: string,
                       macAddress: string, ipAddress: string)

  /** A row of `sapi_provisioned_subnets`; `subnetId` is the primary key. */
  datatype Subnet = Subnet(subnetId: string, tenantId: string, networkId: string,
                           shared: bool, enableDhcp: bool)

  function NetId(n: Net): string { n.networkId }
  function TorKey(t: Tor): (string, string, string) { (t.torIp, t.tunnelSrcIp, t.switchType) }
  function TorIp(t: Tor): string { t.torIp }
  function PortId(p: Port): string { p.portId }
  function PortNet(p: Port): string { p.networkId }
  function SubnetId(s: Subnet): string { s.subnetId }

  /** The one row of `rows` with management address `torIp`, as
      `filter_by(ip=torIp).one()` finds it. */
  function TorByIp(rows: seq<Tor>, torIp: string): (r: Result<Tor>)
    ensures r.Ok? ==> r.value in rows && r.value.torIp == torIp
    ensures r == Err(NoResultFound) <==> forall i :: 0 <= i < |rows| ==> rows[i].torIp != torIp
    ensures r == Err(MultipleResultsFound) <==>
      exists i, j :: 0 <= i < j < |rows| && rows[i].torIp == torIp && rows[j].torIp == torIp
    ensures r.Err? ==> r.fault in {NoResultFound, MultipleResultsFound}
  {
    var sel := (t: Tor) => t.torIp == torIp;
    FilterMembers(rows, sel);
    FilterTwo(rows, sel);
    CountFilter(rows, sel);
    CountPositive(rows, sel);
    One(Filter(rows, sel))
  }

  /** The four tables, each with its primary key. */
  class Store {
    const nets: KeyedTable<Net, string>
    const tors: KeyedTable<Tor, (string, string, string)>
    const ports: KeyedTable<Port, string>
    const subnets: KeyedTable<Subnet, string>

    ghost predicate Valid()
      reads nets, tors, ports, subnets
    {
      && nets.key == NetId && tors.key == TorKey
      && ports.key == PortId && subnets.key == SubnetId
      && nets.Valid() && tors.Valid() && ports.Valid() && subnets.Valid()
    }

    constructor()
      ensures Valid()
      ensures nets.rows == [] && tors.rows == [] && ports.rows == [] && subnets.rows == []
      ensures fresh(nets) && fresh(tors) && fresh(ports) && fresh(subnets)
    {
      nets := new KeyedTable(NetId);
      tors := new KeyedTable(TorKey);
      ports := new KeyedTable(PortId);
      subnets := new KeyedTable(SubnetId);
    }

    // ---- networks ----

    /** `save_net`: a second network with the same id is a duplicate key. */
    method SaveNet(n: Net) returns (r: Result<()>)
      requires Valid()
      modifies nets
      ensures Valid()
      ensures r == Err(DuplicateEntry) <==>
        exists i :: 0 <= i < |old(nets.rows)| && old(nets.rows)[i].networkId == n.networkId
      ensures r.Err? ==> r == Err(DuplicateEntry) && nets.rows == old(nets.rows)
      ensures r.Ok? ==> nets.rows == old(nets.rows) + [n]
    {
      r := nets.Save(n);
    }

    /** `get_net`: the network with that id, or `NoResultFound`. */
    function GetNet(id: string): (r: Result<Net>)
      requires Valid()
      reads nets, tors, ports, subnets
      ensures r.Ok? ==> r.value in nets.rows && r.value.networkId == id
      ensures r.Err? ==> r == Err(NoResultFound)
      ensures r.Err? <==> forall i :: 0 <= i < |nets.rows| ==> nets.rows[i].networkId != id
    {
      nets.GetByKey(id);
      nets.Get(KeyIs(NetId, id))
    }

    /** `update_net`: the row with id `id` becomes `n`; `NoResultFound`
        when there is none, `DuplicateEntry` when `n` takes the id of
        another row. A failed update writes nothing. */
    method UpdateNet(id: string, n: Net) returns (r: Result<()>)
      requires Valid()
      modifies nets
      ensures Valid()
      ensures (forall i :: 0 <= i < |old(nets.rows)| ==> old(nets.rows)[i].networkId != id) ==>
        r == Err(NoResultFound) && nets.rows == old(nets.rows)
      ensures forall i :: 0 <= i < |old(nets.rows)| && old(nets.rows)[i].networkId == id ==>
        if exists j :: 0 <= j < |old(nets.rows)| && j != i && old(nets.rows)[j].networkId == n.networkId
        then r == Err(DuplicateEntry) && nets.rows == old(nets.rows)
        else r == Ok(()) && nets.rows == old(nets.rows)[i := n]
    {
      nets.GetByKey(id);
      r := nets.Update(KeyIs(NetId, id), n);
    }

    /** `delete_net`: exactly the row with that id goes; none is a no-op. */
    method DeleteNet(id: string)
      requires Valid()
      modifies nets
      ensures Valid()
      ensures forall x :: x in nets.rows <==> x in old(nets.rows) && x.networkId != id
      ensures (forall i :: 0 <= i < |old(nets.rows)| ==> old(nets.rows)[i].networkId != id) ==>
        nets.rows == old(nets.rows)
    {
      nets.Delete(KeyIs(NetId, id));
    }

    /** `clear_nets`: the table is emptied. */
    method ClearNets()
      requires Valid()
      modifies nets
      ensures Valid() && nets.rows == []
    {
      nets.Clear();
    }

    /** `get_nets`: every network under its id. */
    function GetNets(): (m: map<string, Net>)
      requires Valid()
      reads nets, tors, ports, subnets
      ensures m.Keys == set i | 0 <= i < |nets.rows| :: nets.rows[i].networkId
      ensures forall i :: 0 <= i < |nets.rows| ==> m[nets.rows[i].networkId] == nets.rows[i]
    {
      forall i | 0 <= i < |nets.rows|
        ensures ByKey(nets.rows, NetId)[nets.rows[i].networkId] == nets.rows[i]
      {
        ByKeyUnique(nets.rows, NetId, i);
      }
      ByKey(nets.rows, NetId)
    }

    // ---- switches ----

    /** `save_tor`: refused only when the whole triple is already stored. */
    method SaveTor(t: Tor) returns (r: Result<()>)
      requires Valid()
      modifies tors
      ensures Valid()
      ensures r == Err(DuplicateEntry) <==> t in old(tors.rows)
      ensures r.Err? ==> r == Err(DuplicateEntry) && tors.rows == old(tors.rows)
      ensures r.Ok? ==> tors.rows == old(tors.rows) + [t]
    {
      r := tors.Save(t);
    }

    /** `delete_tor`: every row with that management address goes. */
    method DeleteTor(torIp: string)
      requires Valid()
      modifies tors
      ensures Valid()
      ensures forall x :: x in tors.rows <==> x in old(tors.rows) && x.torIp != torIp
      ensures (forall i :: 0 <= i < |old(tors.rows)| ==> old(tors.rows)[i].torIp != torIp) ==>
        tors.rows == old(tors.rows)
    {
      tors.Delete((t: Tor) => t.torIp == torIp);
    }

    /** `get_tor`: the one row with that management address;
        `NoResultFound` when there is none and `MultipleResultsFound`
        when several rows share it. */
    function GetTor(torIp: string): (r: Result<Tor>)
      requires Valid()
      reads nets, tors, ports, subnets
      ensures r.Ok? ==> r.value in tors.rows && r.value.torIp == torIp
      ensures r == Err(NoResultFound) <==> forall i :: 0 <= i < |tors.rows| ==> tors.rows[i].torIp != torIp
      ensures r == Err(MultipleResultsFound) <==>
        exists i, j :: 0 <= i < j < |tors.rows| && tors.rows[i].torIp == torIp && tors.rows[j].torIp == torIp
      ensures r.Err? ==> r.fault in {NoResultFound, MultipleResultsFound}
    {
      TorByIp(tors.rows, torIp)
    }

    /** `get_tors`: the switches under their management address; of rows
        sharing an address the last one scanned is kept. */
    function GetTors(): (m: map<string, Tor>)
      requires Valid()
      reads nets, tors, ports, subnets
      ensures m.Keys == set i | 0 <= i < |tors.rows| :: tors.rows[i].torIp
      ensures forall ip :: ip in m ==> m[ip] in tors.rows && m[ip].torIp == ip
    {
      ByKey(tors.rows, TorIp)
    }

    // ---- ports ----

    /** `save_port`: a second port with the same id is a duplicate key. */
    method SavePort(p: Port) returns (r: Result<()>)
      requires Valid()
      modifies ports
      ensures Valid()
      ensures r == Err(DuplicateEntry) <==>
        exists i :: 0 <= i < |old(ports.rows)| && old(ports.rows)[i].portId == p.portId
      ensures r.Err? ==> r == Err(DuplicateEntry) && ports.rows == old(ports.rows)
      ensures r.Ok? ==> ports.rows == old(ports.rows) + [p]
    {
      r := ports.Save(p);
    }

    /** `get_port`: the port with that id, or `NoResultFound`. */
    function GetPort(id: string): (r: Result<Port>)
      requires Valid()
      reads nets, tors, ports, subnets
      ensures r.Ok? ==> r.value in ports.rows && r.value.portId == id
      ensures r.Err? ==> r == Err(NoResultFound)
      ensures r.Err? <==> forall i :: 0 <= i < |ports.rows| ==> ports.rows[i].portId != id
    {
      ports.GetByKey(id);
      ports.Get(KeyIs(PortId, id))
    }

    /** `update_port`: as `UpdateNet`, keyed by the port id. */
    method UpdatePort(id: string, p: Port) returns (r: Result<()>)
      requires Valid()
      modifies ports
      ensures Valid()
      ensures (forall i :: 0 <= i < |old(ports.rows)| ==> old(ports.rows)[i].portId != id) ==>
        r == Err(NoResultFound) && ports.rows == old(ports.rows)
      ensures forall i :: 0 <= i < |old(ports.rows)| && old(ports.rows)[i].portId == id ==>
        if exists j :: 0 <= j < |old(ports.rows)| && j != i && old(ports.rows)[j].portId == p.portId
        then r == Err(DuplicateEntry) && ports.rows == old(ports.rows)
        else r == Ok(()) && ports.rows == old(ports.rows)[i := p]
    {
      ports.GetByKey(id);
      r := ports.Update(KeyIs(PortId, id), p);
    }

    /** `delete_port`: exactly the row with that id goes; none is a no-op. */
    method DeletePort(id: string)
      requires Valid()
      modifies ports
      ensures Valid()
      ensures forall x :: x in ports.rows <==> x in old(ports.rows) && x.portId != id
      ensures (forall i :: 0 <= i < |old(ports.rows)| ==> old(ports.rows)[i].portId != id) ==>
        ports.rows == old(ports.rows)
    {
      ports.Delete(KeyIs(PortId, id));
    }

    /** `clear_ports`: the table is emptied. */
    method ClearPorts()
      requires Valid()
      modifies ports
      ensures Valid() && ports.rows == []
    {
      ports.Clear();
    }

    /** `get_ports`: keyed by NETWORK id, so of the ports on one network
        only the last one scanned appears. */
    function GetPorts(): (m: map<string, Port>)
      requires Valid()
      reads nets, tors, ports, subnets
      ensures m.Keys == set i | 0 <= i < |ports.rows| :: ports.rows[i].networkId
      ensures forall net :: net in m ==> m[net] in ports.rows && m[net].networkId == net
    {
      ByKey(ports.rows, PortNet)
    }

    /** The entry of a network in `GetPorts` is its last port. */
    lemma GetPortsLast(i: nat)
      requires Valid()
      requires i < |ports.rows|
      requires forall j :: i < j < |ports.rows| ==> ports.rows[j].networkId != ports.rows[i].networkId
      ensures GetPorts()[ports.rows[i].networkId] == ports.rows[i]
    {
      ByKeyLast(ports.rows, PortNet, i);
    }

    // ---- subnets ----

    /** `save_subnet`: a second subnet with the same id is a duplicate key. */
    method SaveSubnet(s: Subnet) returns (r: Result<()>)
      requires Valid()
      modifies subnets
      ensures Valid()
      ensures r == Err(DuplicateEntry) <==>
        exists i :: 0 <= i < |old(subnets.rows)| && old(subnets.rows)[i].subnetId == s.subnetId
      ensures r.Err? ==> r == Err(DuplicateEntry) && subnets.rows == old(subnets.rows)
      ensures r.Ok? ==> subnets.rows == old(subnets.rows) + [s]
    {
      r := subnets.Save(s);
    }

    /** `get_subnet`: the subnet with that id, or `NoResultFound`. */
    function GetSubnet(id: string): (r: Result<Subnet>)
      requires Valid()
      reads nets, tors, ports, subnets
      ensures r.Ok? ==> r.value in subnets.rows && r.value.subnetId == id
      ensures r.Err? ==> r == Err(NoResultFound)
      ensures r.Err? <==> forall i :: 0 <= i < |subnets.rows| ==> subnets.rows[i].subnetId != id
    {
      subnets.GetByKey(id);
      subnets.Get(KeyIs(SubnetId, id))
    }

    /** `update_subnet`: as `UpdateNet`, keyed by the subnet id. */
    method UpdateSubnet(id: string, s: Subnet) returns (r: Result<()>)
      requires Valid()
      modifies subnets
      ensures Valid()
      ensures (forall i :: 0 <= i < |old(subnets.rows)| ==> old(subnets.rows)[i].subnetId != id) ==>
        r == Err(NoResultFound) && subnets.rows == old(subnets.rows)
      ensures forall i :: 0 <= i < |old(subnets.rows)| && old(subnets.rows)[i].subnetId == id ==>
        if exists j :: 0 <= j < |old(subnets.rows)| && j != i && old(subnets.rows)[j].subnetId == s.subnetId
        then r == Err(DuplicateEntry) && subnets.rows == old(subnets.rows)
        else r == Ok(()) && subnets.rows == old(subnets.rows)[i := s]
    {
      subnets.GetByKey(id);
      r := subnets.Update(KeyIs(SubnetId, id), s);
    }

    /** `delete_subnet`: exactly the row with that id goes; none is a no-op. */
    method DeleteSubnet(id: string)
      requires Valid()
      modifies subnets
      ensures Valid()
      ensures forall x :: x in subnets.rows <==> x in old(subnets.rows) && x.subnetId != id
      ensures (forall i :: 0 <= i < |old(subnets.rows)| ==> old(subnets.rows)[i].subnetId != id) ==>
        subnets.rows == old(subnets.rows)
    {
      subnets.Delete(KeyIs(SubnetId, id));
    }

    /** `clear_subnets`: the table is emptied. */
    method ClearSubnets()
      requires Valid()
      modifies subnets
      ensures Valid() && subnets.rows == []
    {
      subnets.Clear();
    }

    /** `get_subnets`: every subnet under its id. */
    function GetSubnets(): (m: map<string, Subnet>)
      requires Valid()
      reads nets, tors, ports, subnets
      ensures m.Keys == set i | 0 <= i < |subnets.rows| :: subnets.rows[i].subnetId
      ensures forall i :: 0 <= i < |subnets.rows| ==> m[subnets.rows[i].subnetId] == subnets.rows[i]
    {
      forall i | 0 <= i < |subnets.rows|
        ensures ByKey(subnets.rows, SubnetId)[subnets.rows[i].subnetId] == subnets.rows[i]
      {
        ByKeyUnique(subnets.rows, SubnetId, i);
      }
      ByKey(subnets.rows, SubnetId)
    }
  }
}
