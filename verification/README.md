# sapi local-VLAN and tunnel-mesh bookkeeping, in Dafny

sapi is the control plane of a set of top-of-rack (ToR) switches behind a
Neutron cloud. For every port that lands on a host it finds the switch the
host hangs off (from LLDP neighbour tables read over snmpwalk), hands out a
local VLAN id from one of two per-switch pools, binds that VLAN to the
network's VXLAN on the switch and records the binding. For every switch it
registers, it builds a full mesh of VXLAN tunnels to the other switches.
This project models that core.

- **VLAN bitmap** (`bitmap.dfy`, utils.py `LocalVLanBitmap`). This is a class
  over an `array<bv32>`, 31 ids to a word. It refines the abstract set of
  marked ids `Marked()`. Its allocation returns the smallest free id of
  [min, max].
- **Topology and allocation cache** (`topology.dfy`, `lldp.dfy`, topology.py
  `TopofRacks`). The class holds:
  - the host lists and interface tables built from snmpwalk output;
  - two pools per switch: shared [4002, 4094] and unshared [2, 4000];
  - the cache from `tor + net + "-1"/"-0"` to the id handed out.

  The snmpwalk parsers are loops over the lines, proved equal to a fold over
  the same lines. The string helpers they use are in `text.dfy`.
- **Persisted tables** (`rows.dfy`, `tables.dfy`, `lvtables.dfy`,
  models.py and models_lv.py).
  - Each table is a sequence of rows. It has the save, delete, update, clear,
    `one()` and count semantics of its SQLAlchemy wrapper: duplicate primary
    keys, not-found and multiple-results errors.
  - `Store` holds networks, switches, ports and subnets.
  - `LvStore` holds VLAN allocations, tunnels, port-VLAN mappings and VSIs.
- **Switch drivers** (`drivers.dfy`, `h3c.dfy`).
  - A driver is a function from the calls made so far and the new call to its
    answer, or to the error the call raises. `DriverManager` is the registry by switch type, with a log of
    every call.
  - The H3C NETCONF driver is a class whose effect is the log of operations
    it sends to the device it is connected to.
- **Workflows** (`sapi.dfy`, `mesh.dfy`, `resync.dfy`, `bodies.dfy`,
  `outcomes.dfy`, sapi.py `Sapi`): `create_localvlan`, `delete_localvlan`,
  `create_tor`, `delete_tor` and `create_sync`.
  - Each is a method on the stores, the allocator and the driver log.
  - Each is proved equal to a function of the old state. For the loops over
    tunnels and switches, lemmas then state what those functions mean: every
    peer gets a tunnel, no tunnel to a removed switch survives, and a fault
    stops the loop.
  - Failures become the `SapiError` of `outcomes.dfy`: NotFound, BadRequest,
    TorConfigError, NoAvaVlan, or an exception the code does not catch,
    `Unhandled(fault)`.

## Model

| member | source | states |
|---|---|---|
| Bitmap.Shift | utils.py:38-39 | the shift `31 - num % 31` of any id lies in 1..31, so every id fits a 32-bit word |
| Bitmap.Amount | utils.py:41-46 | the same shift as a bit-vector amount, within 1..31 |
| Bitmap.AmountInjective | utils.py:38-39 | two ids get the same shift exactly when they have the same bit location |
| Bitmap.LocationInjective | utils.py:33-39 | distinct ids occupy distinct (word, bit) locations |
| Bitmap.SetBitSame | utils.py:44-46 | setting bit `s` of a word turns that bit on |
| Bitmap.SetBitOther | utils.py:44-46 | setting bit `s1` leaves every other bit of the word unchanged |
| Bitmap.ClearBitSame | utils.py:51-53 | clearing bit `s` turns that bit off |
| Bitmap.ClearBitOther | utils.py:51-53 | clearing bit `s1` leaves every other bit unchanged |
| Bitmap.HasSetBit | utils.py:44-46 | after setting `s1`, bit `s2` is on iff it was on or `s2 == s1` |
| Bitmap.HasClearBit | utils.py:51-53 | after clearing `s1`, bit `s2` is on iff it was on and `s2 != s1` |
| Bitmap.WordCount | utils.py:27-28 | the corrected array length `max / 31 + 1` is at least one word |
| Bitmap.IdsInRange | utils.py:33-36 | with the corrected length, every id up to `max` indexes inside the array |
| Bitmap.WordCountAgrees | utils.py:27-28 | when `max % 31 != 0` (4000 and 4094), the length the source computes equals the corrected one |
| Bitmap.AsWrittenMaxOutOfRange | utils.py:27-36 | when `max` is a positive multiple of 31, id `max` falls one word past the array the source allocates, and inside the corrected one |
| Bitmap.FirstFreeIsSmallest | utils.py:55-62 | the id the allocator picks lies in [min, max], is unmarked, and every smaller id of the range is marked |
| Bitmap.FirstFreeNoneIffFull | utils.py:55-62 | the allocator finds nothing exactly when every id of [min, max] is marked |
| Bitmap.FirstFreeOnlyRange | utils.py:55-62 | the pick depends only on which ids inside [min, max] are marked |
| Bitmap.WordIndexBound | utils.py:33-36 | an id's word is inside an array of `len` words iff the id is below `31 * len` |
| Bitmap.MarkedOfIsOn | utils.py:64-69 | an id is in the abstract set iff its bit is on in its word |
| Bitmap.SetBitAt | utils.py:41-46 | after marking `num`, an id is on iff it was on or is `num` |
| Bitmap.ClearBitAt | utils.py:48-53 | after clearing `num`, an id is on iff it was on and is not `num` |
| Bitmap.MarkedOfSet | utils.py:41-46 | marking `num` adds exactly `num` to the abstract set |
| Bitmap.MarkedOfClear | utils.py:48-53 | clearing `num` removes exactly `num` from the abstract set |
| Bitmap.MarkedOfZero | utils.py:23-28 | an all-zero array marks no id |
| Bitmap.LocalVlanBitmap.BitOn | utils.py:64-69 | `_bit_on(num)` is true iff `num` is marked |
| Bitmap.LocalVlanBitmap.constructor | utils.py:23-28 | a fresh bitmap keeps `min` and `max` and marks nothing |
| Bitmap.LocalVlanBitmap.AddBits | utils.py:41-46 | succeeds iff the id's word exists; the marked set becomes the old one plus `num` (so a second add changes nothing); out of range the words are unchanged |
| Bitmap.LocalVlanBitmap.DeleteBits | utils.py:48-53 | succeeds iff the id's word exists; the marked set becomes the old one minus `num` (so clearing an unmarked id changes nothing) |
| Bitmap.LocalVlanBitmap.GetUnusedBits | utils.py:55-62 | returns the smallest unmarked id of [min, max] and marks it; returns None and changes no word when the range is full |
| Bitmap.AllocateReleaseScenario | utils.py:55-62 | on a fresh [2, 4000] pool: allocate gives 2, allocate gives 3, release 2, allocate gives 2 |
| Text.ContainsIff | h3c.py:196-200 | `sub in s` holds iff `sub` occurs at some position of `s` |
| Text.Split | topology.py:183-184 | `str.split(sep)` yields at least one piece |
| Text.SplitJoin | topology.py:183-185 | joining the pieces of a split with the separator gives the string back, and no piece contains the separator |
| Text.JoinSplit | topology.py:204 | splitting a join of separator-free pieces gives the pieces back |
| Text.SplitAppend | topology.py:199 | splitting `a + sep + b` splits `a` and `b` separately |
| Text.SplitNoSep | topology.py:183-184 | a string without the separator splits into itself alone |
| Text.SplitUnder | topology.py:199-204 | the last components of `head + "." + join(parts)` are exactly `parts` |
| Text.JoinFree | topology.py:185 | a join of pieces free of a character other than the separator is free of it |
| Text.LastN | topology.py:204 | `xs[-k:]` has `k` elements, or all of them when there are fewer |
| Text.StripCharEnds | topology.py:186 | after `strip('"')` the result neither starts nor ends with `"` |
| Text.StripCharSlice | topology.py:186 | `strip` returns a contiguous slice of its input |
| Text.StripWrapped | topology.py:186 | stripping a value wrapped in quotes gives the value back |
| Text.ReplaceAbsent | h3c.py:277-279 | replacing a pattern that does not occur changes nothing |
| Text.ParseIntDigits | topology.py:199 | `int` of a digit string is its decimal value |
| Text.DigitsRoundTrip | topology.py:199 | the decimal digits of `n` are digits and read back as `n` |
| Text.IntStringRoundTrip | h3c.py:284-291 | `int(str(n)) == n` for every integer |
| Text.IntToStringInjective | h3c.py:303-305 | distinct integers have distinct decimal strings, so distinct VXLANs get distinct VSI names |
| Lldp.SnmpwalkCmd | topology.py:145-148 | the command has 7 words: snmpwalk, version, community and ip in place; the oid always starts with '.', an already-dotted oid is kept unchanged, and the given oid is its suffix |
| Lldp.FirstPrefixSpec | topology.py:170-174 | `_is_oid` finds nothing iff no known item is a prefix of the oid; otherwise it returns the first item in list order that is |
| Lldp.IsOid | topology.py:170-174 | the loop returns the first known item that prefixes the oid |
| Lldp.NonEmpty | topology.py:183 | the lines kept are exactly the non-empty ones |
| Lldp.ReadLocalLine | topology.py:183-207 | one line of local walk output updates the local record as the fold step does |
| Lldp.ParseLocalData | topology.py:176-211 | the local record after the loop is the fold of the lines of the walk output; a failed command leaves the empty record |
| Lldp.ReadRemoteLine | topology.py:218-246 | one line of remote walk output updates the neighbour map as the fold step does |
| Lldp.StoreField | topology.py:229-246 | the record under `index` is created if absent and the field of that item is set, no other key changes |
| Lldp.ParseRemoteData | topology.py:213-250 | the neighbour map after the loop is the fold of the lines of the walk output |
| Lldp.WalkLineFields | topology.py:184-186 | a walk line's oid is its first word and its value is the text after the type tag with quotes stripped |
| Lldp.QuotedValue | topology.py:186 | a quoted value whose ends are not quotes reads back unchanged |
| Lldp.ItemOidNoSpace | topology.py:21-35 | the known item oids contain no space |
| Lldp.OidUnderParts | topology.py:199-204 | an oid under an item with numeric suffix components splits with those components last |
| Lldp.NotPrefixAt | topology.py:170-174 | two strings differing at a position inside both cannot be in the prefix relation |
| Lldp.FirstPrefixAt | topology.py:170-174 | the first item that prefixes the oid is what `_is_oid` returns |
| Lldp.ClassifyItem | topology.py:170-174 | an oid under a known item is classified as that item: no earlier item prefixes it |
| Lldp.DottedQuad | topology.py:204 | joining four components with '.' gives the dotted address |
| Lldp.LocalScalarRow | topology.py:192-197 | a mac, sysname or desc line sets exactly that field to the stripped value |
| Lldp.LocalPortRow | topology.py:198-201 | a port-name line records the name under the last oid component |
| Lldp.LocalMgrStep | topology.py:202-205 | a management-address line records the last four oid components under the integer value |
| Lldp.MgrOidFields | topology.py:202-205 | the management-address oid is classified correctly and its last four components are the address |
| Lldp.LocalMgrRow | topology.py:202-205 | a management-address line maps its interface index to the dotted address |
| Lldp.RemoteStepKeyed | topology.py:227-234 | a remote line updates only the record under the key read from its oid |
| Lldp.FillField | topology.py:236-243 | filling one neighbour field sets it to the value and keeps the others |
| Lldp.FieldOidFields | topology.py:231-232 | for the field items the key is the second-to-last oid component |
| Lldp.RemoteFieldRow | topology.py:231-243 | a neighbour field line adds its key to the map, changes no other record, and sets that field only |
| Lldp.AddrOidFields | topology.py:227-228 | for the address item the key is the eighth-to-last component and the last four form the ip |
| Lldp.RemoteAddrRow | topology.py:227-246 | an address line stores the neighbour ip from the last four components under the eighth-to-last component |
| Topology.CacheIdSuffix | topology.py:139-143 | the two keys of a (tor, net) pair share the prefix `tor + net + "-"` and differ only in the last character, '1' for shared and '0' otherwise; they are equal iff the flags are |
| Topology.IndexEntry | topology.py:158-167 | an interface entry exists iff the local and remote records carry every field read; it is tagged with the switch and takes its name from the local index map and its host from the neighbour |
| Topology.Any | topology.py:76 | picks some member of a non-empty set (dictionary order is not fixed) |
| Topology.FindHost | topology.py:77-79 | finds an interface whose host is `host`, and none only when no interface has it |
| Topology.EntriesStep | topology.py:158-167 | recording one more remote index keeps every recorded entry equal to its interface entry |
| Topology.OrdersStep | topology.py:157 | visiting a new remote index extends the enumeration of the visited indices by it, still without repeats |
| Topology.HostsStep | topology.py:168 | appending the host of the new index keeps position k of the host list equal to the host of the k-th visited index |
| Topology.OrdersSize | topology.py:157 | an enumeration without repeats is exactly as long as the set of indices it lists |
| Topology.DescribesHosts | topology.py:150-168 | a built switch has one host name per remote index, and the host of every remote index is on its list |
| Topology.PartialStep | topology.py:157-168 | the loop invariant of `_get_topology` for one switch is kept by one more index |
| Topology.BuildTor | topology.py:150-168 | for one switch, the table is exactly the interface entries of the remote indices and for some order of visiting the remote indices, each once, position k of the host list is the host of the k-th visited index (a host on two ports appears twice); a missing field raises KeyError |
| Topology.RecordedFrame | topology.py:150-168 | building one switch does not change what was recorded for another |
| Topology.CacheFoldSpec | topology.py:130-133 | after seeding, a key is cached iff it was before or some allocation row has it; it holds the id of the last such row, and untouched keys keep their id |
| Topology.AllocatedIff | topology.py:134-137 | an id is seeded into a switch's shared or unshared pool iff some allocation row names that switch, flag and id |
| Topology.TakeSpec | topology.py:81-102 | `get_localvlan` on the cache and the marks of the chosen pool: a cached id comes back, not new, with nothing changed; a new id was free, lies in the pool range, every smaller id of the range was taken, and it is marked and cached; -1 (with no index) only when every id of the range is taken, with nothing changed; only an uncached key on a switch without pools raises |
| Topology.Switches | topology.py:125 | the switches set up are exactly the configured ones |
| Topology.TopofRacks.PoolFacts | topology.py:125-128 | each switch's shared pool spans [4002, 4094] and its unshared pool [2, 4000] |
| Topology.TopofRacks.OthersApart | topology.py:125-128 | no two pools share their words, so changing one leaves the others alone |
| Topology.TopofRacks.constructor | topology.py:38-45 | a new object keeps the switch list and starts with no pools, cache or topology |
| Topology.TopofRacks.GetUpTor | topology.py:69-73 | returns a switch whose host list contains `host`, and None only when no list does |
| Topology.TopofRacks.GetIndex | topology.py:75-79 | returns an interface index whose host is `host`, and None only when there is none |
| Topology.TopofRacks.GetTopology | topology.py:150-168 | succeeds iff every switch's records are complete; then each switch's table and host list are built as `BuildTor` states; otherwise KeyError |
| Topology.TopofRacks.GetVlanId | topology.py:81-89 | an unknown switch is KeyError; otherwise the id is the smallest free one of the pool chosen by `shared`, marked and cached under the key; an exhausted pool changes nothing |
| Topology.TopofRacks.TakeFree | topology.py:84-87 | takes the smallest free id of the chosen pool and marks it; leaves the pool unchanged when it is full |
| Topology.TopofRacks.GetLocalVlan | topology.py:91-102 | a cache hit returns the cached id, not new, and touches no pool; a miss allocates from the pool chosen by `shared`, caches it and returns new; an exhausted pool returns -1, no index, not new, and leaves the cache unchanged |
| Topology.TopofRacks.DeleteVlanId | topology.py:104-109 | clears the id in the chosen pool and removes the cache key; an unknown switch is KeyError and an id beyond the array IndexError; an absent cache key is KeyError after the id is cleared |
| Topology.TopofRacks.DeleteLocalVlan | topology.py:111-117 | clears the id and removes a cache key starting with `tor_ip + network_id`; with no such key it deletes the key '' and fails with KeyError |
| Topology.TopofRacks.AddPools | topology.py:126-128 | a switch gets two fresh empty pools; other switches keep theirs |
| Topology.TopofRacks.AddAllPools | topology.py:125-128 | every configured switch gets empty pools |
| Topology.TopofRacks.LoadAllocation | topology.py:131-137 | one allocation row is cached under its key and marked in its pool; an unknown switch is KeyError and an id beyond the array IndexError |
| Topology.TopofRacks.LoadNext | topology.py:131-137 | the loop step of seeding keeps the cache equal to the fold and the pools equal to the seeded sets |
| Topology.TopofRacks.LoadAllocations | topology.py:130-137 | seeding succeeds iff every row fits; then the cache is the fold of the rows and each pool is the old one plus the ids the rows give it |
| Topology.TopofRacks.InitPools | topology.py:125-137 | pools are set up for every switch, then seeded; later allocations therefore never return a persisted id |
| Topology.TopofRacks.InitData | topology.py:119-137 | the topology is built first, then the pools are set up and seeded; it succeeds iff both do |
| Rows.Filter | models_lv.py:35-39 | a filtered table is never longer than the table |
| Rows.FilterMember | models_lv.py:35-39 | a row survives a filter iff it was in the table and matches |
| Rows.FilterMembers | models_lv.py:35-39 | the same for every row at once |
| Rows.FilterOut | models_lv.py:35-39 | deleting by a selector keeps exactly the rows it does not select |
| Rows.FilterMultiset | models_lv.py:74-82 | a filter keeps every copy of a matching row and drops every other row |
| Rows.FilterKeepsAll | models_lv.py:116-120 | deleting when nothing matches leaves the table unchanged |
| Rows.FilterAppend | models_lv.py:129-133 | filtering distributes over concatenation |
| Rows.CountFilter | models_lv.py:129-133 | `query.count()` is the number of matching rows |
| Rows.CountSelected | models_lv.py:129-133 | the count is the size of the set of matching positions |
| Rows.CountPositive | models_lv.py:141-146 | the count is positive iff some row matches |
| Rows.FilterTwo | models.py:94-99 | more than one row matches iff two distinct positions match |
| Rows.One | models.py:50-55 | `.one()` succeeds iff exactly one row is given; none is NoResultFound, several MultipleResultsFound |
| Rows.UniqueKeyFilter | models.py:50-55 | in a table with a primary key, at most one row has a given key |
| Rows.FilterKeysUnique | models.py:62-66 | filtering keeps primary keys distinct |
| Rows.ByKey | models.py:101-105 | the dictionary built from a table has exactly the rows' keys, and each value is a row with that key |
| Rows.ByKeyLast | models.py:177-181 | for a key, the dictionary holds its last row in table order |
| Rows.ByKeyUnique | models.py:62-66 | with distinct keys, every row is the dictionary's value for its key |
| Rows.FirstWhere | models.py:26-31 | the first matching position matches, and no earlier one does |
| Rows.KeyedTable.constructor | models.py:8-16 | a new table is empty |
| Rows.KeyedTable.Save | models.py:33-42 | adding a row whose primary key exists is DuplicateEntry and changes nothing; otherwise the row is appended |
| Rows.KeyedTable.Get | models.py:50-55 | `.one()` over the rows a selector picks: the row when exactly one matches, NoResultFound for none, MultipleResultsFound for two or more |
| Rows.KeyedTable.GetByKey | models.py:50-55 | selecting by primary key never finds several rows |
| Rows.KeyedTable.Count | models_lv.py:129-139 | the count is the number of matching rows; it is positive iff one exists |
| Rows.KeyedTable.Update | models.py:26-31 | an absent row is the `.one()` fault and changes nothing; otherwise the first matching row is replaced, unless the new key clashes with another row (DuplicateEntry) |
| Rows.KeyedTable.Delete | models.py:44-48 | removes exactly the selected rows and keeps the rest; nothing selected is a no-op |
| Rows.KeyedTable.Clear | models.py:57-60 | the table is left empty |
| Tables.TorByIp | models.py:94-99 | the one switch row with that ip; NoResultFound when none, MultipleResultsFound when two rows share the ip |
| Tables.Store.constructor | models.py:8-16 | the four tables start empty |
| Tables.Store.SaveNet | models.py:33-42 | DuplicateEntry iff the network id is already stored, with nothing changed; otherwise the row is appended |
| Tables.Store.GetNet | models.py:50-55 | the row with that id, and NoResultFound iff there is none |
| Tables.Store.UpdateNet | models.py:26-31 | NoResultFound when absent; otherwise that row is replaced, unless the new id belongs to another row |
| Tables.Store.DeleteNet | models.py:44-48 | exactly the rows with that id are gone; an absent id is a no-op |
| Tables.Store.ClearNets | models.py:57-60 | the networks table is empty |
| Tables.Store.GetNets | models.py:62-66 | a map from each stored network id to its row |
| Tables.Store.SaveTor | models.py:80-86 | DuplicateEntry iff the same (ip, tunnel source, type) row exists; two rows may share an ip |
| Tables.Store.DeleteTor | models.py:88-92 | every row with that ip is gone and the others stay |
| Tables.Store.GetTor | models.py:94-99 | the row with that ip; NoResultFound iff none, MultipleResultsFound iff two rows share it |
| Tables.Store.GetTors | models.py:101-105 | a map keyed by switch ip, each value a stored row with that ip |
| Tables.Store.SavePort | models.py:142-157 | DuplicateEntry iff the port id is already stored; otherwise the row is appended |
| Tables.Store.GetPort | models.py:165-170 | the row with that id, and NoResultFound iff there is none |
| Tables.Store.UpdatePort | models.py:135-140 | NoResultFound when absent; otherwise that row is replaced, unless the new id clashes |
| Tables.Store.DeletePort | models.py:159-163 | exactly the rows with that id are gone |
| Tables.Store.ClearPorts | models.py:172-175 | the ports table is empty |
| Tables.Store.GetPorts | models.py:177-181 | a map keyed by network id, so at most one port per network appears |
| Tables.Store.GetPortsLast | models.py:177-181 | the port a network maps to is its last port in table order |
| Tables.Store.SaveSubnet | models.py:199-208 | DuplicateEntry iff the subnet id is already stored; otherwise the row is appended |
| Tables.Store.GetSubnet | models.py:223-228 | the row with that id, and NoResultFound iff there is none |
| Tables.Store.UpdateSubnet | models.py:210-215 | NoResultFound when absent; otherwise that row is replaced, unless the new id clashes |
| Tables.Store.DeleteSubnet | models.py:217-221 | exactly the rows with that id are gone |
| Tables.Store.ClearSubnets | models.py:230-233 | the subnets table is empty |
| Tables.Store.GetSubnets | models.py:235-239 | a map from each subnet id to its row |
| LvTables.VsisOn | models_lv.py:172-177 | the VSI rows of a switch are exactly the stored rows with that ip |
| LvTables.LvStore.constructor | models_lv.py:8-16 | the four tables start empty |
| LvTables.LvStore.SaveVlanAllocation | models_lv.py:25-33 | the allocation row is appended, other tables unchanged |
| LvTables.LvStore.DeleteVlanAllocations | models_lv.py:35-39 | every allocation row of (tor ip, network id) is removed, whatever its shared flag; the rest stay |
| LvTables.LvStore.SaveTunnel | models_lv.py:60-66 | the tunnel row is appended |
| LvTables.LvStore.DeleteTunnel | models_lv.py:68-72 | exactly the rows with that (tor ip, tunnel id) are removed |
| LvTables.LvStore.GetTunnelWithTor | models_lv.py:74-82 | the pair (rows whose tor ip is `tor_ip`, rows whose destination is `dst_addr`), the first with every copy of each row |
| LvTables.LvStore.SaveVsi | models_lv.py:159-164 | the VSI row is appended |
| LvTables.LvStore.DeleteVsi | models_lv.py:166-170 | exactly the rows with that (tor ip, vxlan) are removed |
| LvTables.LvStore.GetVsisByTor | models_lv.py:172-177 | exactly the VSI rows of that switch |
| LvTables.LvStore.SavePortVlanMapping | models_lv.py:106-114 | port id is the primary key: a second mapping for a port is DuplicateEntry and changes nothing |
| LvTables.LvStore.DeletePortVlanMapping | models_lv.py:116-120 | exactly the row of that port is removed; an absent id is a no-op |
| LvTables.LvStore.GetPortVlanMapping | models_lv.py:122-127 | the mapping of that port, and NoResultFound iff there is none |
| LvTables.LvStore.PvmCountByNet | models_lv.py:129-133 | the number of mapping rows with that (tor ip, network id) |
| LvTables.LvStore.PvmCountByTorIndex | models_lv.py:135-139 | the number of mapping rows with that (tor ip, interface index) |
| LvTables.LvStore.IsExistsPvm | models_lv.py:141-146 | true iff some mapping row has that (tor ip, vlan id, index) |
| H3c.StaleFrom31 | h3c.py:181-183 | `int(now - timestamp) > 30` holds iff at least 31 seconds have passed |
| H3c.CheckResp | h3c.py:196-200 | a reply is accepted iff "ok" occurs in it |
| H3c.LastIdLineIsLast | h3c.py:281-288 | the id kept is the tag-stripped last line starting with `<ID>`, and none iff no line starts so |
| H3c.TunnelIdOf | h3c.py:275-291 | no reply at all gives -1 |
| H3c.LastIdOfTwo | h3c.py:281-288 | a reply whose last line is an id line yields that line's id |
| H3c.TunnelIdOfNumber | h3c.py:275-291 | a reply ending in `<ID>n</ID>` yields the tunnel id `n` |
| H3c.ReplaceTags | h3c.py:277-279 | stripping the tags from `<ID>digits</ID>` leaves the digits |
| H3c.NoOpenTag | h3c.py:277-279 | removing `<ID>` from digits followed by `</ID>` changes nothing |
| H3c.CloseTagAfterDigits | h3c.py:277-279 | removing `</ID>` after digits leaves the digits |
| H3c.EditsFor | h3c.py:328-329 | one edit per tunnel id, in order, each binding the vxlan to that tunnel |
| H3c.EditPairsLength | h3c.py:326-330 | one edit per (vxlan, tunnel id) pair |
| H3c.EditPairsAt | h3c.py:326-330 | the edit at position `i * |tunnels| + j` binds vxlan `i` to tunnel `j` |
| H3c.EditPairsIndex | h3c.py:326-330 | all edits are in vxlan-major order, one per pair |
| H3c.SendsTo | h3c.py:202-207 | with no live connection nothing is sent; otherwise each operation is sent, in order, to the connected device |
| H3c.SendsToAppend | h3c.py:202-207 | sending two lists of operations in turn sends their concatenation |
| H3c.H3CNetConfDriver.constructor | h3c.py:170-175 | no connection, endpoint or credentials yet; the timestamp is the time of creation and nothing was sent |
| H3c.H3CNetConfDriver.Target | h3c.py:202-207 | the endpoint operations go to: the current endpoint when its cached connection is live |
| H3c.H3CNetConfDriver.Initialize | h3c.py:177-194 | records the endpoint and credentials; reconnects only when there is no live cached connection or more than 30 s passed; a failed connect returns false, otherwise true, and the timestamp moves only on a reconnect |
| H3c.H3CNetConfDriver.Operation | h3c.py:196-207 | sends the operation to the live endpoint; the result is true iff there is one, the device replied, and its reply contains "ok" (`Accepts`) |
| H3c.H3CNetConfDriver.AvailableTunnelId | h3c.py:275-291 | asks the device for its free tunnel ids and returns the id on the last `<ID>` line, or -1 |
| H3c.H3CNetConfDriver.NewTunnel | h3c.py:275-298 | with no free id returns (false, -1) and creates nothing; otherwise creates the tunnel under that id and returns (status, id), status true iff the device accepts the creation as `Accepts` states |
| H3c.H3CNetConfDriver.DeleteTunnelById | h3c.py:300-301 | sends the delete of that tunnel; true iff there is a live endpoint that replies with "ok" |
| H3c.H3CNetConfDriver.NewVlan2Vxlan | h3c.py:303-310 | sends, in order: create VSI "vsi"+vxlan, create the VXLAN on it, create the service (index, vlan, vlan), create the AC; returns true whatever they return |
| H3c.H3CNetConfDriver.DeleteVlan2Vxlan | h3c.py:312-324 | deletes the AC, then the service; without only_index also the VXLAN, then the VSI; returns true |
| H3c.H3CNetConfDriver.EnsureVxlanWithTunnel | h3c.py:326-330 | sends one edit per (vxlan, tunnel id) pair in vxlan-major order and returns true |
| H3c.H3CNetConfDriver.BindTunnels | h3c.py:328-329 | the inner loop: one edit per tunnel id for one vxlan |
| Drivers.RunPrefix | sapi.py:221-228 | a guarded run of calls logs a prefix of them: all when it completes, none when the switch type has no driver, at least one when a call is refused or raises |
| Drivers.RunAnswers | sapi.py:221-228 | every call logged was answered true, except the last call of a refused run, answered false, and the last call of a faulted run, which raised that fault |
| Drivers.RunAppend | sapi.py:221-228 | two runs in a row are one run over both lists; the second starts only if the first completes |
| Drivers.DriverManager.constructor | sapi.py:29-30 | no driver registered and nothing logged |
| Drivers.DriverManager.SetItem | sapi.py:32-33 | registers (or replaces) the driver of a type |
| Drivers.DriverManager.Invoke | sapi.py:35-36 | an unregistered type is KeyError and nothing is called; otherwise the call is logged and the driver's answer returned |
| Bodies.Member | sapi.py:58-98 | `v[key]` succeeds iff `v` is an object with that key; KeyError for a missing key, TypeError for a non-object |
| Bodies.NetFromBody | sapi.py:58-68 | succeeds iff `body["network"]` is an object carrying every network column as a string, integer or boolean as the row needs; a missing key is KeyError and any other shape TypeError |
| Bodies.NetRoundTrip | sapi.py:58-68 | extracting the body built from a row gives the row back |
| Bodies.PortFromBody | sapi.py:70-87 | succeeds iff `body["port"]` carries every port column and a non-empty address list whose first entry holds an address and a subnet string; failures are KeyError, TypeError or IndexError |
| Bodies.PortWithoutAddress | sapi.py:84-86 | the guard `len(fixed_ips) >= 0` always holds, so a port with no address fails with IndexError |
| Bodies.First | sapi.py:83-86 | `fixed_ips[0]` after `len(fixed_ips)`: the first item of a non-empty list or the first character of a non-empty string; an empty list or string is IndexError, an object KeyError (no JSON key is the integer 0), anything else TypeError |
| Bodies.PortWithAddressObject | sapi.py:83-86 | a port whose `fixed_ips` is an object rather than a list fails with KeyError |
| Bodies.PortRoundTrip | sapi.py:70-87 | extracting the body built from a port row gives the row back |
| Bodies.SubnetFromBody | sapi.py:89-98 | succeeds iff `body["subnet"]` carries every subnet column |
| Bodies.SubnetRoundTrip | sapi.py:89-98 | extracting the body built from a subnet row gives the row back |
| Resync.Items | sapi.py:193-201 | iterating a section: a list yields its items; an empty object or string yields nothing; anything else is TypeError |
| Resync.LoadedStep | sapi.py:193-201 | one more item either stops the loop or appends its row |
| Resync.LoadedStops | sapi.py:193-201 | after the first fault the later items change nothing |
| Resync.LoadedRows | sapi.py:193-201 | the rows saved have distinct keys and each comes from some item |
| Resync.LoadedAll | sapi.py:193-201 | items extracting to rows with distinct keys are all saved, in order |
| Resync.Sync | sapi.py:186-204 | without `sina_openstack` nothing is saved; ports are saved only after all networks were, subnets only after all ports were |
| Resync.SyncRoundTrip | sapi.py:186-204 | syncing from the body built from tables with distinct keys restores exactly those tables |
| Resync.SyncKeysUnique | sapi.py:186-204 | whatever the body, the tables after a sync have distinct primary keys |
| Outcomes.Raised | sapi.py:221-228 | a completed run is success; a refused call is TorConfigError; a call that raised, or a missing driver (KeyError), escapes uncaught with that fault |
| Outcomes.Caught | sapi.py:302-303 | only NoResultFound is turned into NotFound; any other fault stays uncaught |
| Outcomes.TunnelIds | sapi.py:222 | the tunnel ids of the tunnel rows, in order |
| Outcomes.Vxlans | sapi.py:339 | the vxlans of the VSI rows, in order |
| Mesh.OwnTeardownStep | sapi.py:284-290 | removing one more own tunnel runs its teardown calls unless an earlier one failed |
| Mesh.OwnTeardownStops | sapi.py:284-290 | after the first failure, later own tunnels are left alone |
| Mesh.PairsStep | sapi.py:286-290 | one more own tunnel adds its (switch, id) pair to what is dropped |
| Mesh.PairsNext | sapi.py:294-300 | one more peer tunnel adds its (switch, id) pair |
| Mesh.PairsOf | models_lv.py:68-72 | the pairs of a tunnel list are exactly the (tor ip, id) of its rows |
| Mesh.Retarget | sapi.py:286-290 | the own tunnels as deleted under the switch's own ip, row by row |
| Mesh.DroppedTwice | models_lv.py:68-72 | dropping two sets of tunnels in turn drops their union |
| Mesh.PeerTeardownStep | sapi.py:293-300 | one more peer tunnel runs its teardown on the peer unless an earlier one failed |
| Mesh.PeerTeardownNext | sapi.py:293-300 | the loop invariant of the peer teardown is kept by one more tunnel |
| Mesh.PeerTeardownStops | sapi.py:293-300 | after the first failure, later peer tunnels are left alone |
| Mesh.SwitchGone | sapi.py:283-300 | once the switch's own tunnels and those aimed at its tunnel source are dropped, no remaining tunnel starts at the switch or points at that source |
| Mesh.Then | sapi.py:318-352 | chaining two sweeps sends and saves both, in order |
| Mesh.NewOne | sapi.py:323-330 | a created tunnel saves exactly one row (the new switch to the peer) on success; a failure is TorConfigError or an uncaught fault (the KeyError of a missing driver, or the error the driver raised) |
| Mesh.ForwardStep | sapi.py:318-330 | the peer equal to the tunnel source is skipped; every other peer adds one tunnel unless an earlier one failed |
| Mesh.ForwardStops | sapi.py:318-330 | after the first failure no further tunnel is created |
| Mesh.ForwardNext | sapi.py:318-330 | the loop invariant of the forward tunnels is kept by one more peer |
| Mesh.ForwardMesh | sapi.py:318-330 | every row saved goes from the new switch to a peer other than its source; on success every such peer got one |
| Mesh.Bound | sapi.py:344-352 | a reverse tunnel saves at most one row, from the peer to the new source, on success |
| Mesh.Rejoin | sapi.py:341-352 | the same for the tunnel of one existing switch |
| Mesh.Reverse | sapi.py:337-352 | the same, for one existing switch looked up in the table |
| Mesh.BackwardStep | sapi.py:337-352 | one more existing switch adds its reverse tunnel unless an earlier one failed |
| Mesh.BackwardStops | sapi.py:337-352 | after the first failure no further reverse tunnel is made |
| Mesh.BackwardNext | sapi.py:337-352 | the loop invariant of the reverse tunnels is kept by one more switch |
| Mesh.BackwardLast | sapi.py:337-352 | visiting one more switch after a successful run appends its reverse tunnel |
| Mesh.BackwardRows | sapi.py:337-352 | every reverse row points at the new source from a switch visited |
| Mesh.BackwardCovers | sapi.py:337-352 | on success every switch visited has a reverse tunnel to the new source |
| Mesh.VisitingNext | sapi.py:337 | visiting one more registered switch keeps the order a repetition-free walk of the registry, complete once none is left |
| Mesh.CreationRows | sapi.py:305-352 | success means the switch row was added, which happens only if it was new; every tunnel saved is forward (new switch to a peer) or reverse (a switch registered before to the new source) |
| Mesh.CreationCovers | sapi.py:305-352 | on success every peer other than the source has a forward tunnel and every switch visited a reverse one |
| Mesh.CreationReachesAll | sapi.py:307-354 | when the order walks the whole registry, on success every switch registered before the call has a reverse tunnel to the new source |
| Sapi.Sapi.constructor | sapi.py:38-56 | the workflows run over the given stores, allocator and driver registry |
| Sapi.Sapi.Send | sapi.py:221-228 | one guarded driver call: logged as `Run` states, and `Raised` gives the outcome, a raised error escaping uncaught |
| Sapi.Sapi.SendTwo | sapi.py:221-228 | two guarded calls in a row |
| Sapi.Sapi.SendThree | sapi.py:221-228 | three guarded calls in a row: initialize, bind VLAN to VXLAN, bind the VXLAN to every tunnel |
| Sapi.Sapi.ConfigureVlan | sapi.py:221-228 | the switch is configured with the calls of `Configuration`, over every tunnel row's id; a false answer is TorConfigError |
| Sapi.Sapi.RecordVlan | sapi.py:229-240 | allocation and VSI rows are written iff the allocation was new; a mapping row is written on success, and a port that has one already is BadRequest |
| Sapi.Sapi.PlaceVlan | sapi.py:220-240 | for an id `get_localvlan` gave: the switch is configured only when no mapping has that (tor, vlan, index); any refusal raises TorConfigError before any row is written; the cache and the pools are untouched |
| Sapi.Sapi.Allocate | sapi.py:216 | allocates through `get_localvlan`: the result, the cache and the marks of the chosen pool are what `Take` gives, no other pool changes; an unknown switch is an uncaught KeyError |
| Sapi.Sapi.BindVlan | sapi.py:216-240 | the allocation is `Take` on the old cache and marks; a negative id is NoAvaVlan with no row or driver change; otherwise the VLAN is placed as `PlaceVlan` states |
| Sapi.Sapi.CreateLocalVlan | sapi.py:206-244 | finds the host's switch; no switch, an unknown network or port is NotFound with no store, pool, cache or driver change; otherwise allocates as `Take` states (other pools untouched), then binds the VLAN |
| Sapi.Sapi.ReleaseVlan | sapi.py:259-263 | releases the id in its pool and a cache key of the (tor, network) as `Released` states, other pools untouched; on success drops the switch's VSI and allocation rows for the network, on a fault no row changes |
| Sapi.Sapi.Unmap | sapi.py:265-274 | unbinds on the switch only when at most one mapping uses (tor, index); the mapping row is deleted last, only if every earlier step succeeded; the cache and pools are untouched |
| Sapi.Sapi.Unbind | sapi.py:255-274 | iff exactly one mapping remains for (tor, network), the id and cache key are released as `Released` states and the VSI and allocation rows dropped, otherwise cache, pools and those rows stay; the driver then gets only_index false, otherwise true |
| Sapi.Sapi.DeleteLocalVlan | sapi.py:246-276 | an unknown port mapping or network is NotFound with no table, pool, cache or driver change; a missing switch row is the `.one()` fault, likewise with nothing changed; otherwise it releases and unbinds as `Unbind` states |
| Sapi.TakeThenRelease | sapi.py:216-263 | an id newly taken for a network and then released for it leaves the pool as it was and succeeds; with no other cache key of that switch and network, the cache is back as it was too |
| Sapi.Sapi.RemoveTunnel | sapi.py:286-290 | deletes one tunnel on the switch and, on success, its row |
| Sapi.Sapi.RemoveOwnTunnel | sapi.py:284-290 | the loop step over the switch's own tunnels |
| Sapi.Sapi.RemoveOwnTunnels | sapi.py:284-290 | deletes the switch's own tunnels in turn; on success exactly their rows are gone |
| Sapi.Sapi.RemovePeer | sapi.py:294-300 | deletes one peer's tunnel towards the switch on that peer, and its row |
| Sapi.Sapi.RemovePeerTunnel | sapi.py:293-300 | the loop step over the peer tunnels |
| Sapi.Sapi.RemovePeerTunnels | sapi.py:293-300 | deletes every peer tunnel aimed at the switch's source in turn; on success exactly their rows are gone |
| Sapi.Sapi.Decommission | sapi.py:283-300 | own tunnels first, then the switch rows, then the peer tunnels; on success no tunnel starts at the switch or points at its source |
| Sapi.Sapi.DeleteTor | sapi.py:278-303 | an unknown switch is NotFound with nothing changed; a known one is decommissioned as `Decommission` states (own and peer teardown logs, allocation and VSI rows untouched); on success its rows and every tunnel on it or aimed at its source are gone |
| Sapi.Sapi.SyncNets | sapi.py:193-195 | the emptied networks table receives the rows of the "network" section up to the first fault |
| Sapi.Sapi.SyncPorts | sapi.py:196-198 | the same for the "port" section |
| Sapi.Sapi.SyncSubnets | sapi.py:199-201 | the same for the "subnet" section |
| Sapi.Sapi.CreateSync | sapi.py:186-204 | the three tables end as `Sync` states; a malformed body is BadRequest |
| Sapi.Sapi.OpenTunnel | sapi.py:323-326 | creates one tunnel and, on success, saves its row under the id the driver gave |
| Sapi.Sapi.ForwardTunnel | sapi.py:318-330 | the loop step over the peers |
| Sapi.Sapi.BuildForward | sapi.py:318-330 | creates the tunnels from the new switch to every peer but its source, as `Forward` states |
| Sapi.Sapi.BindTunnel | sapi.py:344-354 | creates a reverse tunnel and binds the peer's VXLANs to it |
| Sapi.Sapi.RejoinTunnel | sapi.py:341-354 | the reverse tunnel of one existing switch |
| Sapi.Sapi.ReverseTunnel | sapi.py:337-354 | looks the switch up and makes its reverse tunnel |
| Sapi.Sapi.ReverseStep | sapi.py:337-354 | the loop step over the switches registered before |
| Sapi.Sapi.BuildReverse | sapi.py:337-354 | visits each switch registered before at most once, all of them on success, making each its reverse tunnel |
| Sapi.Sapi.Provision | sapi.py:313-333 | initializes the new switch, makes its forward tunnels and binds its VXLANs to them, as `Provisioned` states; a refusal stops it with TorConfigError |
| Sapi.Sapi.CreateTor | sapi.py:305-354 | the log, tunnel rows, switch rows and outcome are exactly what `Creation` gives; the switch row is added only if new, and on success every earlier switch is visited |

## Left out

- Running snmpwalk and its failure are not modelled. The output of
  `utils.execute` is a parameter (`Execute`, a function from the command to
  its output or to a failure). Printing the traceback is not modelled.
- The NETCONF sessions (ncclient), lxml parsing and pretty-printing are not
  modelled. The device is a reply function from what was sent so far and the
  new request to an optional reply text.
- The literal XML bodies of the `_*_xml` builders (h3c.py:209-273) are not
  modelled. Each operation is a tagged record (`Op`) carrying the same
  arguments.
- `time.time()` is a parameter of `Initialize` (its time and the time after
  connecting). Whether the connect succeeds is a parameter too.
- Python dictionary iteration order is left open. The workflows pick any
  member (`Any`), and a ghost `order` records what `create_tor` visited.
- The `tunnel_sync` RPC to Neutron is not modelled. Its result is the
  `peers` input of `CreateTor`.
- The `port` argument of `get_localvlan` is not modelled: the code never
  reads it. The empty `''` index returned with -1 is `None`.
- The lazy `topology`/`topology_sp` properties and the `topofracks` setter
  (topology.py:47-67) are not modelled. `InitData` builds the topology
  eagerly, as `__init__` does.
- Vlan ids are `nat`. Ids from the stores are not checked against a width.
- The `DriverManager` holds driver functions. The H3C driver class is
  modelled on its own and not plugged into it.
- The CRUD handlers `create_network` … `update_subnet` (sapi.py:100-184) and
  `index_topology` (sapi.py:356-358) are not modelled. They are thin wrappers
  over the table methods modelled here.
- `import_class_ins`, `_load_switch_drivers` and `_setup_rpc` are not
  modelled. The constructor takes the stores, the allocator and the driver
  registry as parameters. The hard-coded credentials are constants.
- `LoopingCall*`, `execute`, `subprocess_popen` and `regular` of utils.py are
  not modelled: they are timers and process handling.
- api.py, server.py, config.py, conf.py, db.py, rpc.py and base.py are not
  part of this model. exceptions.py becomes `SapiError`.
- Concurrent requests are not modelled; the code has no locking.
- A workflow that faults halfway leaves the state it reached, as the code
  does; no transaction is rolled back.
- Bodies.NetFromBody: the code copies whatever each key holds into the
  row, so a `null` (or otherwise typed) value reaches the nullable column,
  e.g. `"provider:segmentation_id": null`. The model's rows have typed
  columns, because the workflows compute with them (the segmentation id is
  the VXLAN, `shared` picks the pool). Such a value is refused with
  TypeError instead, and a sync body holding one stops at that item.
- Bodies.PortFromBody: likewise, a non-string value of a port column, or of
  the address or subnet of the first fixed address, is TypeError rather than
  stored.
- Bodies.SubnetFromBody: likewise for the subnet columns.
- A fresh id followed by a refused switch configuration stays cached and
  marked with no allocation row, as in the code (`Sapi.Sapi.BindVlan` states
  both the allocation and the rows left unwritten). Nothing undoes it.
- `get_tunnnels` (models_lv.py:84-88) is not a separate member. The
  workflows read the `tunnels` field directly.
- Sapi.Sapi.BuildReverse: the ghost visiting order is promised to cover
  every registered switch only on success. After a fault it covers a prefix.
- Sapi.Sapi.CreateTor: like `BuildReverse`, complete coverage of the
  switches registered before is promised only on success.
- Resync.Items: iterating a non-empty dictionary or string yields its keys or
  characters. The extractor fails on the first one with TypeError, which is
  what the model returns directly.
- H3c.TunnelIdOf: it states only the no-reply case on its own. The reply
  case is stated by `LastIdLineIsLast` and `TunnelIdOfNumber`.

## Findings

| source | as written | input that shows it | evidently intended | confidence | as-written member | corrected member |
|---|---|---|---|---|---|---|
| utils.py:27-36 | the array has `(max + 31 - 1) / 31` words, while id `n` lives in word `n / 31` | `LocalVLanBitmap(0, 31)`: the array has one word, yet `add_bits(31)` indexes word 1 (IndexError); likewise `get_unused_bits` once [min, 30] is used up | `max / 31 + 1` words, so that every id of [min, max] has a word; the pools used (4000, 4094) are not multiples of 31 and are unaffected | not executed | Bitmap.AsWrittenMaxOutOfRange | Bitmap.IdsInRange |
