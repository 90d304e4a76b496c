/** `create_sync` (sapi.py): the networks, ports and subnets tables are
    emptied and refilled from one request body, section by section, up to
    the first fault. */
module Resync {
  import opened Faults
  import opened Rows
  import opened Tables
  import opened Bodies

  /** `for x in v`: the items of a list. A dictionary or a string yields
      its keys or its characters, on the first of which the extractor
      fails with TypeError, so only an empty one gets through; any other
      value is not iterable. */
  function Items(v: Json): (r: Result<seq<Json>>)
    ensures v.JList? ==> r == Ok(v.items)
    ensures r.Ok? <==> v.JList? || v == JObject(map[]) || v == JStr("")
    ensures r.Err? ==> r.fault == TypeError
  {
    match v
    case JList(items) => Ok(items)
    case JObject(fields) => if |fields| == 0 then Ok([]) else Err(TypeError)
    case JStr(s) => if |s| == 0 then Ok([]) else Err(TypeError)
    case _ => Err(TypeError)
  }

  /** `self._get_net_from_body({"network": v})`, and likewise for ports
      and subnets. */
  function NetItem(v: Json): Result<Net> { NetFromBody(JObject(map["network" := v])) }
  function PortItem(v: Json): Result<Port> { PortFromBody(JObject(map["port" := v])) }
  function SubnetItem(v: Json): Result<Subnet> { SubnetFromBody(JObject(map["subnet" := v])) }

  /** One loop of lines 193-201 into an emptied table: each item in turn
      is extracted by `extract` and saved under the primary key `key`, up
      to the first fault (a malformed item or a key saved already); the
      rows saved and whether every item was. */
  function Loaded<T, K(==)>(items: seq<Json>, extract: Json -> Result<T>, key: T -> K): (seq<T>, bool)
    decreases |items|
  {
    if |items| == 0 then ([], true)
    else
      var (rows, ok) := Loaded(items[..|items| - 1], extract, key);
      if !ok then (rows, false)
      else match extract(items[|items| - 1])
        case Err(_) => (rows, false)
        case Ok(x) =>
          if exists i :: 0 <= i < |rows| && key(rows[i]) == key(x) then (rows, false)
          else (rows + [x], true)
  }

  lemma LoadedStep<T, K>(items: seq<Json>, extract: Json -> Result<T>, key: T -> K, i: nat)
    requires i < |items|
    ensures var (rows, ok) := Loaded(items[..i], extract, key);
      Loaded(items[..i + 1], extract, key) ==
        if !ok then (rows, false)
        else match extract(items[i])
          case Err(_) => (rows, false)
          case Ok(x) =>
            if exists j :: 0 <= j < |rows| && key(rows[j]) == key(x) then (rows, false)
            else (rows + [x], true)
  {
    assert items[..i + 1][..i] == items[..i];
  }

  /** Once a loop has failed, the later items change nothing. */
  lemma {:induction false} LoadedStops<T, K>(items: seq<Json>, extract: Json -> Result<T>, key: T -> K, j: nat)
    requires j <= |items| && !Loaded(items[..j], extract, key).1
    ensures Loaded(items, extract, key) == Loaded(items[..j], extract, key)
    decreases |items| - j
  {
    if j < |items| {
      LoadedStep(items, extract, key, j);
      LoadedStops(items, extract, key, j + 1);
    } else {
      assert items[..j] == items;
    }
  }

  /** The rows a loop saves have distinct keys, and each is what some item
      extracts to. */
  lemma {:induction false} LoadedRows<T, K>(items: seq<Json>, extract: Json -> Result<T>, key: T -> K)
    ensures KeysUnique(Loaded(items, extract, key).0, key)
    ensures forall x :: x in Loaded(items, extract, key).0 ==> exists k :: 0 <= k < |items| && extract(items[k]) == Ok(x)
    decreases |items|
  {
    if |items| > 0 {
      var init := items[..|items| - 1];
      LoadedRows(init, extract, key);
      var (rows, ok) := Loaded(init, extract, key);
      forall x | x in Loaded(items, extract, key).0
        ensures exists k :: 0 <= k < |items| && extract(items[k]) == Ok(x)
      {
        if x in rows {
          var k :| 0 <= k < |init| && extract(init[k]) == Ok(x);
          assert items[k] == init[k];
        } else {
          assert extract(items[|items| - 1]) == Ok(x);
        }
      }
    }
  }

  /** Items that extract one by one to rows with distinct keys are all
      saved, in order. */
  lemma {:induction false} LoadedAll<T, K>(items: seq<Json>, extract: Json -> Result<T>, key: T -> K, rows: seq<T>)
    requires |rows| == |items| && KeysUnique(rows, key)
    requires forall k :: 0 <= k < |items| ==> extract(items[k]) == Ok(rows[k])
    ensures Loaded(items, extract, key) == (rows, true)
    decreases |items|
  {
    if |items| > 0 {
      var n := |items| - 1;
      LoadedAll(items[..n], extract, key, rows[..n]);
      assert rows == rows[..n] + [rows[n]];
      forall i | 0 <= i < n
        ensures key(rows[..n][i]) != key(rows[n])
      {
      }
    }
  }

  /** Lines 193-201 for the section `name` of `data`: `data[name]` is
      looked up and iterated just before its loop. */
  function Section<T, K(==)>(data: Json, name: string, extract: Json -> Result<T>, key: T -> K): (seq<T>, bool)
  {
    match Member(data, name)
    case Err(_) => ([], false)
    case Ok(v) =>
      match Items(v)
      case Err(_) => ([], false)
      case Ok(items) => Loaded(items, extract, key)
  }

  /** The three tables after `create_sync`, and whether it succeeded. */
  datatype Synced = Synced(nets: seq<Net>, ports: seq<Port>, subnets: seq<Subnet>, ok: bool)

  /** Lines 186-204: the tables are emptied, then the networks, ports and
      subnets of `body["sina_openstack"]` are saved in turn; a fault ends
      the sync with what was saved so far. */
  function Sync(body: Json): (s: Synced)
    ensures Member(body, "sina_openstack").Err? ==> s == Synced([], [], [], false)
    ensures s.ports != [] || s.subnets != [] || s.ok ==>
      Member(body, "sina_openstack").Ok? && Section(Member(body, "sina_openstack").value, "network", NetItem, NetId).1
    ensures s.subnets != [] || s.ok ==> Section(Member(body, "sina_openstack").value, "port", PortItem, PortId).1
  {
    match Member(body, "sina_openstack")
    case Err(_) => Synced([], [], [], false)
    case Ok(data) =>
      var (nets, netsOk) := Section(data, "network", NetItem, NetId);
      if !netsOk then Synced(nets, [], [], false)
      else
        var (ports, portsOk) := Section(data, "port", PortItem, PortId);
        if !portsOk then Synced(nets, ports, [], false)
        else
          var (subnets, subnetsOk) := Section(data, "subnet", SubnetItem, SubnetId);
          Synced(nets, ports, subnets, subnetsOk)
  }

  /** The body a client sends to replace the tables by `nets`, `ports`
      and `subnets`. */
  function SyncBody(nets: seq<Net>, ports: seq<Port>, subnets: seq<Subnet>): Json
  {
    JObject(map["sina_openstack" := JObject(map[
      "network" := JList(seq(|nets|, k requires 0 <= k < |nets| => JObject(NetFields(nets[k])))),
      "port" := JList(seq(|ports|, k requires 0 <= k < |ports| => JObject(PortFields(ports[k])))),
      "subnet" := JList(seq(|subnets|, k requires 0 <= k < |subnets| => JObject(SubnetFields(subnets[k]))))])])
  }

  /** Syncing from the body built from tables with distinct keys gives
      exactly those tables back. */
  lemma SyncRoundTrip(nets: seq<Net>, ports: seq<Port>, subnets: seq<Subnet>)
    requires KeysUnique(nets, NetId) && KeysUnique(ports, PortId) && KeysUnique(subnets, SubnetId)
    ensures Sync(SyncBody(nets, ports, subnets)) == Synced(nets, ports, subnets, true)
  {
    var data := Member(SyncBody(nets, ports, subnets), "sina_openstack").value;
    var netItems := Member(data, "network").value.items;
    forall k | 0 <= k < |nets|
      ensures NetItem(netItems[k]) == Ok(nets[k])
    {
      NetRoundTrip(nets[k]);
    }
    LoadedAll(netItems, NetItem, NetId, nets);
    var portItems := Member(data, "port").value.items;
    forall k | 0 <= k < |ports|
      ensures PortItem(portItems[k]) == Ok(ports[k])
    {
      PortRoundTrip(ports[k]);
    }
    LoadedAll(portItems, PortItem, PortId, ports);
    var subnetItems := Member(data, "subnet").value.items;
    forall k | 0 <= k < |subnets|
      ensures SubnetItem(subnetItems[k]) == Ok(subnets[k])
    {
      SubnetRoundTrip(subnets[k]);
    }
    LoadedAll(subnetItems, SubnetItem, SubnetId, subnets);
  }

  /** Whatever the body, the tables left by a sync have distinct keys. */
  lemma SyncKeysUnique(body: Json)
    ensures var s := Sync(body);
      KeysUnique(s.nets, NetId) && KeysUnique(s.ports, PortId) && KeysUnique(s.subnets, SubnetId)
  {
    if Member(body, "sina_openstack").Ok? {
      var data := Member(body, "sina_openstack").value;
      if Member(data, "network").Ok? && Items(Member(data, "network").value).Ok? {
        LoadedRows(Items(Member(data, "network").value).value, NetItem, NetId);
      }
      if Member(data, "port").Ok? && Items(Member(data, "port").value).Ok? {
        LoadedRows(Items(Member(data, "port").value).value, PortItem, PortId);
      }
      if Member(data, "subnet").Ok? && Items(Member(data, "subnet").value).Ok? {
        LoadedRows(Items(Member(data, "subnet").value).value, SubnetItem, SubnetId);
      }
    }
  }
}
