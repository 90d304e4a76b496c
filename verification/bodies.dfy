/** The request bodies of `sapi.py`: JSON values, and the extractors
    `_get_net_from_body`, `_get_port_from_body` and `_get_subnet_from_body`
    that turn a Neutron resource into a table row. */
module Bodies {
  import opened Faults
  import opened Tables

  datatype Json =
    | JNull
    | JBool(b: bool)
    | JInt(i: int)
    | JStr(s: string)
    | JList(items: seq<Json>)
    | JObject(fields: map<string, Json>)

  /** `v` is an object whose `key` holds a string, an integer, a bool. */
  predicate HasStr(v: Json, key: string) { v.JObject? && key in v.fields && v.fields[key].JStr? }
  predicate HasInt(v: Json, key: string) { v.JObject? && key in v.fields && v.fields[key].JInt? }
  predicate HasBool(v: Json, key: string) { v.JObject? && key in v.fields && v.fields[key].JBool? }

  /** `v[key]`: KeyError when the object lacks the key, TypeError when
      `v` is not an object. */
  function Member(v: Json, key: string): (r: Result<Json>)
    ensures r.Ok? <==> v.JObject? && key in v.fields
    ensures r.Ok? ==> r.value == v.fields[key]
    ensures r.Err? ==> r.fault == (if v.JObject? then KeyError else TypeError)
  {
    if !v.JObject? then Err(TypeError)
    else if key !in v.fields then Err(KeyError)
    else Ok(v.fields[key])
  }

  function StrMember(v: Json, key: string): Result<string>
  {
    var x :- Member(v, key);
    if x.JStr? then Ok(x.s) else Err(TypeError)
  }

  function IntMember(v: Json, key: string): Result<int>
  {
    var x :- Member(v, key);
    if x.JInt? then Ok(x.i) else Err(TypeError)
  }

  function BoolMember(v: Json, key: string): Result<bool>
  {
    var x :- Member(v, key);
    if x.JBool? then Ok(x.b) else Err(TypeError)
  }

  // ---- networks ----

  /** A Neutron network object carrying every column of a network row. */
  predicate NetShaped(v: Json)
  {
    HasStr(v, "id") && HasStr(v, "tenant_id") && HasStr(v, "provider:network_type") &&
    HasInt(v, "provider:segmentation_id") && HasBool(v, "admin_state_up") && HasBool(v, "shared")
  }

  /** The Neutron network a row comes from. */
  function NetFields(n: Net): map<string, Json>
  {
    map["id" := JStr(n.networkId), "tenant_id" := JStr(n.tenantId),
        "provider:network_type" := JStr(n.segmentationType),
        "provider:segmentation_id" := JInt(n.segmentationId),
        "admin_state_up" := JBool(n.adminStateUp), "shared" := JBool(n.shared)]
  }

  function NetBody(n: Net): Json
  {
    JObject(map["network" := JObject(NetFields(n))])
  }

  /** `_get_net_from_body(body)`: the row read off `body["network"]`; it
      succeeds exactly when that object carries every column. */
  function NetFromBody(body: Json): (r: Result<Net>)
    ensures r.Ok? <==> Member(body, "network").Ok? && NetShaped(Member(body, "network").value)
    ensures r.Err? ==> r.fault == KeyError || r.fault == TypeError
  {
    var network :- Member(body, "network");
    var id :- StrMember(network, "id");
    var tenant :- StrMember(network, "tenant_id");
    var segType :- StrMember(network, "provider:network_type");
    var segId :- IntMember(network, "provider:segmentation_id");
    var up :- BoolMember(network, "admin_state_up");
    var shared :- BoolMember(network, "shared");
    Ok(Net(id, tenant, segId, segType, up, shared))
  }

  /** Extracting the body built from a row gives the row back. */
  lemma NetRoundTrip(n: Net)
    ensures NetFromBody(NetBody(n)) == Ok(n)
  {
    assert Member(NetBody(n), "network") == Ok(JObject(NetFields(n)));
  }

  // ---- ports ----

  function PortFields(p: Port): map<string, Json>
  {
    map["id" := JStr(p.portId), "tenant_id" := JStr(p.tenantId), "network_id" := JStr(p.networkId),
        "device_id" := JStr(p.deviceId), "device_owner" := JStr(p.deviceOwner),
        "status" := JStr(p.status), "admin_state_up" := JBool(p.adminStateUp),
        "binding:host_id" := JStr(p.bindingHostId), "mac_address" := JStr(p.macAddress),
        "fixed_ips" := JList([JObject(map["ip_address" := JStr(p.ipAddress), "subnet_id" := JStr(p.subnetId)])])]
  }

  function PortBody(p: Port): Json
  {
    JObject(map["port" := JObject(PortFields(p))])
  }

  /** A Neutron port object carrying every column of a port row but the
      address, and a list of fixed addresses. */
  predicate PortShaped(v: Json)
  {
    HasStr(v, "id") && HasStr(v, "tenant_id") && HasStr(v, "network_id") && HasStr(v, "device_id") &&
    HasStr(v, "device_owner") && HasStr(v, "status") && HasBool(v, "admin_state_up") &&
    HasStr(v, "binding:host_id") && HasStr(v, "mac_address") &&
    "fixed_ips" in v.fields && v.fields["fixed_ips"].JList?
  }

  /** `_get_port_from_body(body)`: the row read off `body["port"]`, its
      address and subnet from the first fixed address. The guard on the
      address list, `len(fixed_ips) >= 0`, always holds, so an empty list
      fails with IndexError. */
  function PortFromBody(body: Json): (r: Result<Port>)
    ensures r.Ok? <==>
      (Member(body, "port").Ok? && PortShaped(Member(body, "port").value) &&
       var ips := Member(body, "port").value.fields["fixed_ips"].items;
       |ips| > 0 && HasStr(ips[0], "ip_address") && HasStr(ips[0], "subnet_id"))
    ensures r.Err? ==> r.fault == KeyError || r.fault == TypeError || r.fault == IndexError
  {
    var port :- Member(body, "port");
    var id :- StrMember(port, "id");
    var tenant :- StrMember(port, "tenant_id");
    var network :- StrMember(port, "network_id");
    var device :- StrMember(port, "device_id");
    var owner :- StrMember(port, "device_owner");
    var status :- StrMember(port, "status");
    var up :- BoolMember(port, "admin_state_up");
    var host :- StrMember(port, "binding:host_id");
    var mac :- StrMember(port, "mac_address");
    var fixed :- Member(port, "fixed_ips");
    var first :- First(fixed);
    var ip :- StrMember(first, "ip_address");
    var subnet :- StrMember(first, "subnet_id");
    Ok(Port(id, network, tenant, subnet, device, owner, status, up, host, mac, ip))
  }

  /** `fixed_ips[0]` after `len(fixed_ips)`: `len` refuses a value with no
      length (TypeError); an empty list or string has no first element
      (IndexError); an object is looked up under the integer key 0, which
      no JSON object holds (KeyError); a string yields its first character. */
  function First(v: Json): (r: Result<Json>)
    ensures r.Ok? <==> (v.JList? && |v.items| > 0) || (v.JStr? && |v.s| > 0)
    ensures r.Ok? && v.JList? ==> r.value == v.items[0]
    ensures r.Ok? && v.JStr? ==> r.value == JStr(v.s[..1])
    ensures r.Err? ==> r.fault == (if v.JObject? then KeyError
                                   else if v.JList? || v.JStr? then IndexError
                                   else TypeError)
  {
    match v
    case JList(items) => if |items| == 0 then Err(IndexError) else Ok(items[0])
    case JStr(s) => if |s| == 0 then Err(IndexError) else Ok(JStr(s[..1]))
    case JObject(_) => Err(KeyError)
    case _ => Err(TypeError)
  }

  /** A port whose address list is empty cannot be extracted. */
  lemma PortWithoutAddress(body: Json)
    requires Member(body, "port").Ok? && PortShaped(Member(body, "port").value)
    requires Member(body, "port").value.fields["fixed_ips"].items == []
    ensures PortFromBody(body) == Err(IndexError)
  {
  }

  /** An address map given as an object rather than a list fails on the
      lookup of its element 0. */
  lemma PortWithAddressObject(body: Json)
    requires Member(body, "port").Ok?
    requires var port := Member(body, "port").value;
      HasStr(port, "id") && HasStr(port, "tenant_id") && HasStr(port, "network_id") &&
      HasStr(port, "device_id") && HasStr(port, "device_owner") && HasStr(port, "status") &&
      HasBool(port, "admin_state_up") && HasStr(port, "binding:host_id") && HasStr(port, "mac_address") &&
      "fixed_ips" in port.fields && port.fields["fixed_ips"].JObject?
    ensures PortFromBody(body) == Err(KeyError)
  {
  }

  lemma PortRoundTrip(p: Port)
    ensures PortFromBody(PortBody(p)) == Ok(p)
  {
    var port := JObject(PortFields(p));
    assert Member(PortBody(p), "port") == Ok(port);
    var address := JObject(map["ip_address" := JStr(p.ipAddress), "subnet_id" := JStr(p.subnetId)]);
    assert port.fields["fixed_ips"] == JList([address]);
  }

  // ---- subnets ----

  /** A Neutron subnet object carrying every column of a subnet row. */
  predicate SubnetShaped(v: Json)
  {
    HasStr(v, "id") && HasStr(v, "tenant_id") && HasStr(v, "network_id") &&
    HasBool(v, "shared") && HasBool(v, "enable_dhcp")
  }

  function SubnetFields(s: Subnet): map<string, Json>
  {
    map["id" := JStr(s.subnetId), "tenant_id" := JStr(s.tenantId), "network_id" := JStr(s.networkId),
        "shared" := JBool(s.shared), "enable_dhcp" := JBool(s.enableDhcp)]
  }

  function SubnetBody(s: Subnet): Json
  {
    JObject(map["subnet" := JObject(SubnetFields(s))])
  }

  /** `_get_subnet_from_body(body)`: the row read off `body["subnet"]`. */
  function SubnetFromBody(body: Json): (r: Result<Subnet>)
    ensures r.Ok? <==> Member(body, "subnet").Ok? && SubnetShaped(Member(body, "subnet").value)
    ensures r.Err? ==> r.fault == KeyError || r.fault == TypeError
  {
    var subnet :- Member(body, "subnet");
    var id :- StrMember(subnet, "id");
    var tenant :- StrMember(subnet, "tenant_id");
    var network :- StrMember(subnet, "network_id");
    var shared :- BoolMember(subnet, "shared");
    var dhcp :- BoolMember(subnet, "enable_dhcp");
    Ok(Subnet(id, tenant, network, shared, dhcp))
  }

  lemma SubnetRoundTrip(s: Subnet)
    ensures SubnetFromBody(SubnetBody(s)) == Ok(s)
  {
    assert Member(SubnetBody(s), "subnet") == Ok(JObject(SubnetFields(s)));
  }
}
