/** LLDP discovery through snmpwalk, as `TopofRacks` does it in topology.py:
    the walk command, the classification of each reported oid, and the two
    parsers that turn the walk of the local-system table and of the
    neighbour table into records. Running snmpwalk (`utils.execute`) is the
    parameter `execute`: it maps the command line to the text printed, or to
    `None` for the RuntimeError of a failed run. */
module Lldp {
  import opened Text

  type Execute = seq<string> -> Option<string>

  const Snmpwalk := "snmpwalk"
  const Community := "public"
  const DefaultVersion := "2c"

  /** The two LLDP-MIB tables that are walked. */
  const LocalTable := "1.0.8802.1.1.2.1.3"
  const RemoteTable := "1.0.8802.1.1.2.1.4"

  /** The rows the parsers act on: five of the local-system table and five
      of the neighbour table. */
  datatype Item =
    | LocalMac | LocalSysName | LocalDesc | LocalPortName | LocalMgr
    | RemoteMac | RemoteDesc | RemoteHostName | RemoteHostDesc | RemoteAddr

  /** The oid prefix of each row, as snmpwalk prints it. */
  function ItemOid(item: Item): string
  {
    match item
    case LocalMac => "iso.0.8802.1.1.2.1.3.2.0"
    case LocalSysName => "iso.0.8802.1.1.2.1.3.3.0"
    case LocalDesc => "iso.0.8802.1.1.2.1.3.4.0"
    case LocalPortName => "iso.0.8802.1.1.2.1.3.7.1.3"
    case LocalMgr => "iso.0.8802.1.1.2.1.3.8.1.5"
    case RemoteMac => "iso.0.8802.1.1.2.1.4.1.1.5"
    case RemoteDesc => "iso.0.8802.1.1.2.1.4.1.1.8"
    case RemoteHostName => "iso.0.8802.1.1.2.1.4.1.1.9"
    case RemoteHostDesc => "iso.0.8802.1.1.2.1.4.1.1.10"
    case RemoteAddr => "iso.0.8802.1.1.2.1.4.2.1.3"
  }

  /** The local items followed by the neighbour items, in the order in
      which an oid is compared with them. */
  const Items: seq<Item> := [LocalMac, LocalSysName, LocalDesc, LocalPortName, LocalMgr,
                             RemoteMac, RemoteDesc, RemoteHostName, RemoteHostDesc, RemoteAddr]

  /** `_snmpwalk_cmd(community, ip, oid, version)`: the argument vector of
      the walk; the oid always goes out with a leading dot, and one that
      already has it is passed on as it is. */
  function SnmpwalkCmd(community: string, ip: string, oid: string, version: string): (cmd: seq<string>)
    ensures |cmd| == 7 && cmd[0] == Snmpwalk && cmd[2] == version && cmd[4] == community && cmd[5] == ip
    ensures StartsWith(cmd[6], ".")
    ensures StartsWith(oid, ".") ==> cmd[6] == oid
    ensures |oid| <= |cmd[6]| <= |oid| + 1 && cmd[6][|cmd[6]| - |oid|..] == oid
  {
    var dotted := if StartsWith(oid, ".") then oid else "." + oid;
    [Snmpwalk, "-v", version, "-c", community, ip, dotted]
  }

  /** The item an oid belongs to: the first of `items` that it starts with. */
  function FirstPrefix(items: seq<Item>, oid: string): Option<Item>
  {
    if |items| == 0 then None
    else if StartsWith(oid, ItemOid(items[0])) then Some(items[0])
    else FirstPrefix(items[1..], oid)
  }

  /** `FirstPrefix` finds a prefix exactly when one exists, and what it
      finds is the earliest one. */
  lemma {:induction false} FirstPrefixSpec(items: seq<Item>, oid: string)
    ensures FirstPrefix(items, oid).None? <==> forall k :: 0 <= k < |items| ==> !StartsWith(oid, ItemOid(items[k]))
    ensures FirstPrefix(items, oid).Some? ==>
      exists k :: 0 <= k < |items| && FirstPrefix(items, oid).value == items[k] &&
        StartsWith(oid, ItemOid(items[k])) && forall j :: 0 <= j < k ==> !StartsWith(oid, ItemOid(items[j]))
  {
    if |items| > 0 && !StartsWith(oid, ItemOid(items[0])) {
      FirstPrefixSpec(items[1..], oid);
      if FirstPrefix(items[1..], oid).Some? {
        var k :| 0 <= k < |items[1..]| && FirstPrefix(items[1..], oid).value == items[1..][k] &&
          StartsWith(oid, ItemOid(items[1..][k])) && forall j :: 0 <= j < k ==> !StartsWith(oid, ItemOid(items[1..][j]));
        assert items[k + 1] == items[1..][k];
        forall j | 0 <= j < k + 1
          ensures !StartsWith(oid, ItemOid(items[j]))
        {
          if j > 0 {
            assert items[j] == items[1..][j - 1];
          }
        }
      }
      if forall k :: 0 <= k < |items[1..]| ==> !StartsWith(oid, ItemOid(items[1..][k])) {
        forall k | 0 <= k < |items|
          ensures !StartsWith(oid, ItemOid(items[k]))
        {
          if k > 0 {
            assert items[k] == items[1..][k - 1];
          }
        }
      }
    }
  }

  /** `_is_oid(oid)`: scans the items in order and returns the first one
      the oid starts with, or None. */
  method IsOid(oid: string) returns (r: Option<Item>)
    ensures r == FirstPrefix(Items, oid)
  {
    var i := 0;
    while i < |Items|
      invariant 0 <= i <= |Items|
      invariant FirstPrefix(Items[i..], oid) == FirstPrefix(Items, oid)
    {
      assert Items[i..][0] == Items[i] && Items[i..][1..] == Items[i + 1..];
      if StartsWith(oid, ItemOid(Items[i])) {
        return Some(Items[i]);
      }
      i := i + 1;
    }
    r := None;
  }

  /** `[line for line in out.split('\n') if line != '']`. */
  function Lines(out: string): (r: seq<string>)
  {
    NonEmpty(Split(out, '\n'))
  }

  /** The non-empty strings of `xs`, in order. */
  function NonEmpty(xs: seq<string>): (r: seq<string>)
    ensures |r| <= |xs|
    ensures forall l :: l in r <==> l in xs && l != ""
  {
    if |xs| == 0 then []
    else if xs[0] == "" then NonEmpty(xs[1..])
    else [xs[0]] + NonEmpty(xs[1..])
  }

  /** `content[0]` of `content = line.split(' ')`: the oid of a line. */
  function LineOid(line: string): string
  {
    Split(line, ' ')[0]
  }

  /** `' '.join(content[3:]).strip('"')`: the value of a line. */
  function LineValue(line: string): string
  {
    var content := Split(line, ' ');
    StripChar(Join(if |content| < 3 then [] else content[3..], ' '), '"')
  }

  /** The local system as `_parse_local_data` collects it. The three
      scalars are absent until a row sets them; `indexs` maps a local port
      number to its name and `mgrs` an interface index to a management
      address. */
  datatype Local = Local(mac: Option<string>, sysname: Option<string>, desc: Option<string>,
                         indexs: map<int, string>, mgrs: map<int, string>)

  const NoLocal := Local(None, None, None, map[], map[])

  /** One line of the local walk; `None` when the line raises (a ValueError
      from `int()`), which ends the walk. */
  function LocalStep(acc: Local, line: string): Option<Local>
  {
    var oid := LineOid(line);
    var result := LineValue(line);
    var comps := Split(oid, '.');
    match FirstPrefix(Items, oid)
    case None => Some(acc)
    case Some(LocalMac) => Some(acc.(mac := Some(result)))
    case Some(LocalSysName) => Some(acc.(sysname := Some(result)))
    case Some(LocalDesc) => Some(acc.(desc := Some(result)))
    case Some(LocalPortName) =>
      (match ParseInt(comps[|comps| - 1])
       case None => None
       case Some(index) => Some(acc.(indexs := acc.indexs[index := result])))
    case Some(LocalMgr) =>
      (match ParseInt(result)
       case None => None
       case Some(index) => Some(acc.(mgrs := acc.mgrs[index := Join(LastN(comps, 4), '.')])))
    case Some(_) => Some(acc)
  }

  /** The lines applied in order; an exception ends the walk and the
      record built so far is returned (the `finally: return local`). */
  function LocalFold(acc: Local, lines: seq<string>): Local
    decreases |lines|
  {
    if |lines| == 0 then acc
    else match LocalStep(acc, lines[0])
      case None => acc
      case Some(next) => LocalFold(next, lines[1..])
  }

  /** The local record that a walk of the local table yields. */
  function LocalData(ip: string, execute: Execute): Local
  {
    match execute(SnmpwalkCmd(Community, ip, LocalTable, DefaultVersion))
    case None => NoLocal
    case Some(out) => LocalFold(NoLocal, Lines(out))
  }

  /** The body of the loop of `_parse_local_data`: one line; `None` when
      it raises. */
  method ReadLocalLine(local: Local, line: string) returns (next: Option<Local>)
    ensures next == LocalStep(local, line)
  {
    var oid, result := LineOid(line), LineValue(line);
    var item := IsOid(oid);
    if item.None? {
      return Some(local);
    }
    var comps := Split(oid, '.');
    var l := local;
    if item.value == LocalMac {
      l := l.(mac := Some(result));
    } else if item.value == LocalSysName {
      l := l.(sysname := Some(result));
    } else if item.value == LocalDesc {
      l := l.(desc := Some(result));
    } else if item.value == LocalPortName {
      var index := ParseInt(comps[|comps| - 1]);
      if index.None? {
        return None;
      }
      l := l.(indexs := l.indexs[index.value := result]);
    } else if item.value == LocalMgr {
      var index := ParseInt(result);
      if index.None? {
        return None;
      }
      l := l.(mgrs := l.mgrs[index.value := Join(LastN(comps, 4), '.')]);
    }
    next := Some(l);
  }

  /** `_parse_local_data(ip)`. */
  method ParseLocalData(ip: string, execute: Execute) returns (local: Local)
    ensures local == LocalData(ip, execute)
  {
    local := NoLocal;
    var cmd := SnmpwalkCmd(Community, ip, LocalTable, DefaultVersion);
    var out := execute(cmd);
    if out.None? {
      return;
    }
    var lines := Lines(out.value);
    var i := 0;
    while i < |lines|
      invariant 0 <= i <= |lines|
      invariant LocalFold(local, lines[i..]) == LocalData(ip, execute)
    {
      assert lines[i..][0] == lines[i] && lines[i..][1..] == lines[i + 1..];
      var next := ReadLocalLine(local, lines[i]);
      if next.None? {
        return;
      }
      local := next.value;
      i := i + 1;
    }
  }

  /** A neighbour as `_parse_remote_data` collects it; each field is absent
      until a row sets it. */
  datatype Remote = Remote(mac: Option<string>, desc: Option<string>, hostname: Option<string>,
                           hostdesc: Option<string>, ip: Option<string>)

  const NoRemote := Remote(None, None, None, None, None)

  /** The field of a neighbour record that the rows of `item` fill. */
  function RemoteField(rec: Remote, item: Item): Option<string>
  {
    match item
    case RemoteMac => rec.mac
    case RemoteDesc => rec.desc
    case RemoteHostName => rec.hostname
    case RemoteHostDesc => rec.hostdesc
    case RemoteAddr => rec.ip
    case _ => None
  }

  /** The record after a row of `item` with value `result` and oid
      components `comps`; the address row stores the last four components. */
  function Fill(rec: Remote, item: Item, comps: seq<string>, result: string): Remote
  {
    match item
    case RemoteMac => rec.(mac := Some(result))
    case RemoteDesc => rec.(desc := Some(result))
    case RemoteHostName => rec.(hostname := Some(result))
    case RemoteHostDesc => rec.(hostdesc := Some(result))
    case RemoteAddr => rec.(ip := Some(Join(LastN(comps, 4), '.')))
    case _ => rec
  }

  /** How far from the end of the oid the local port number sits: eighth
      to last for the address row, second to last otherwise. */
  function KeyPosition(item: Item): nat
  {
    if item == RemoteAddr then 8 else 2
  }

  /** One line of the neighbour walk; `None` when the line raises (an
      IndexError for a short oid, a ValueError from `int()`). Every
      classified row, local items included, opens a record for its key. */
  function RemoteStep(acc: map<int, Remote>, line: string): Option<map<int, Remote>>
  {
    var oid := LineOid(line);
    var result := LineValue(line);
    var comps := Split(oid, '.');
    match FirstPrefix(Items, oid)
    case None => Some(acc)
    case Some(item) =>
      var back := KeyPosition(item);
      if |comps| < back then None
      else match ParseInt(comps[|comps| - back])
        case None => None
        case Some(index) =>
          var rec := if index in acc then acc[index] else NoRemote;
          Some(acc[index := Fill(rec, item, comps, result)])
  }

  function RemoteFold(acc: map<int, Remote>, lines: seq<string>): map<int, Remote>
    decreases |lines|
  {
    if |lines| == 0 then acc
    else match RemoteStep(acc, lines[0])
      case None => acc
      case Some(next) => RemoteFold(next, lines[1..])
  }

  /** The neighbours, by local port number, that a walk of the neighbour
      table yields. */
  function RemoteData(ip: string, execute: Execute): map<int, Remote>
  {
    match execute(SnmpwalkCmd(Community, ip, RemoteTable, DefaultVersion))
    case None => map[]
    case Some(out) => RemoteFold(map[], Lines(out))
  }

  /** The body of the loop of `_parse_remote_data`: one line; `None` when
      it raises. */
  method ReadRemoteLine(remote: map<int, Remote>, line: string) returns (next: Option<map<int, Remote>>)
    ensures next == RemoteStep(remote, line)
  {
    var oid, result := LineOid(line), LineValue(line);
    var item := IsOid(oid);
    if item.None? {
      return Some(remote);
    }
    var comps := Split(oid, '.');
    var key: Option<int>;
    if item.value == RemoteAddr {
      if |comps| < 8 {
        return None;
      }
      key := ParseInt(comps[|comps| - 8]);
    } else {
      if |comps| < 2 {
        return None;
      }
      key := ParseInt(comps[|comps| - 2]);
    }
    if key.None? {
      return None;
    }
    var m := StoreField(remote, key.value, item.value, comps, result);
    next := Some(m);
  }

  /** The dict updates for one classified line: open the record of `index`
      if it is new, then set the field that `item` names. */
  method StoreField(remote: map<int, Remote>, index: int, item: Item, comps: seq<string>, result: string)
    returns (m: map<int, Remote>)
    ensures m == remote[index := Fill(if index in remote then remote[index] else NoRemote, item, comps, result)]
  {
    ghost var start := if index in remote then remote[index] else NoRemote;
    m := remote;
    if index !in m {
      m := m[index := NoRemote];
    }
    var rec := m[index];
    assert rec == start;
    if item == RemoteMac {
      rec := rec.(mac := Some(result));
    } else if item == RemoteDesc {
      rec := rec.(desc := Some(result));
    } else if item == RemoteHostName {
      rec := rec.(hostname := Some(result));
    } else if item == RemoteHostDesc {
      rec := rec.(hostdesc := Some(result));
    } else if item == RemoteAddr {
      rec := rec.(ip := Some(Join(LastN(comps, 4), '.')));
    }
    assert rec == Fill(start, item, comps, result);
    m := m[index := rec];
    assert m == remote[index := rec];
  }

  /** `_parse_remote_data(ip)`. */
  method ParseRemoteData(ip: string, execute: Execute) returns (remote: map<int, Remote>)
    ensures remote == RemoteData(ip, execute)
  {
    remote := map[];
    var cmd := SnmpwalkCmd(Community, ip, RemoteTable, DefaultVersion);
    var out := execute(cmd);
    if out.None? {
      return;
    }
    var lines := Lines(out.value);
    var i := 0;
    while i < |lines|
      invariant 0 <= i <= |lines|
      invariant RemoteFold(remote, lines[i..]) == RemoteData(ip, execute)
    {
      assert lines[i..][0] == lines[i] && lines[i..][1..] == lines[i + 1..];
      var next := ReadRemoteLine(remote, lines[i]);
      if next.None? {
        return;
      }
      remote := next.value;
      i := i + 1;
    }
  }

  // The rows as an agent prints them, and what each one does to the records.

  /** A line as snmpwalk prints it: `<oid> = <tag> <text>`, the tag being
      the value type (`STRING:`, `INTEGER:`, ...). */
  function WalkLine(oid: string, tag: string, text: string): string
  {
    oid + " = " + tag + " " + text
  }

  /** `"v"`: a string value as snmpwalk quotes it. */
  function Quoted(v: string): string
  {
    "\"" + v + "\""
  }

  /** A decimal oid component. */
  predicate Number(s: string)
  {
    |s| > 0 && AllDigits(s)
  }

  /** An oid under the row of `item` with further components `parts`. */
  function OidUnder(item: Item, parts: seq<string>): string
  {
    ItemOid(item) + "." + Join(parts, '.')
  }

  /** The parsers read back the oid and the text of a printed line, the
      text with its quotes stripped. */
  lemma WalkLineFields(oid: string, tag: string, text: string)
    requires ' ' !in oid && ' ' !in tag
    ensures LineOid(WalkLine(oid, tag, text)) == oid
    ensures LineValue(WalkLine(oid, tag, text)) == StripChar(text, '"')
  {
    var rest2 := tag + [' '] + text;
    var rest1 := "=" + [' '] + rest2;
    assert WalkLine(oid, tag, text) == oid + [' '] + rest1;
    SplitAppend(oid, rest1, ' ');
    SplitAppend("=", rest2, ' ');
    SplitAppend(tag, text, ' ');
    SplitNoSep(oid, ' ');
    SplitNoSep("=", ' ');
    SplitNoSep(tag, ' ');
    SplitJoin(text, ' ');
    var content := Split(WalkLine(oid, tag, text), ' ');
    assert content == [oid, "=", tag] + Split(text, ' ');
    assert content[3..] == Split(text, ' ');
  }

  /** A quoted value reads back as itself when it does not begin or end
      with a quote. */
  lemma QuotedValue(v: string)
    requires |v| == 0 || (v[0] != '"' && v[|v| - 1] != '"')
    ensures StripChar(Quoted(v), '"') == v
  {
    StripWrapped(v, '"');
  }

  lemma ItemOidNoSpace(item: Item)
    ensures ' ' !in ItemOid(item)
  {
  }

  /** The components of an oid under an item: the item's own, then the
      further ones. */
  lemma OidUnderParts(item: Item, parts: seq<string>)
    requires |parts| >= 1 && forall i :: 0 <= i < |parts| ==> Number(parts[i])
    ensures var comps := Split(OidUnder(item, parts), '.');
      |comps| > |parts| && comps[|comps| - |parts|..] == parts
    ensures ' ' !in OidUnder(item, parts)
    ensures OidUnder(item, parts) == ItemOid(item) + ("." + Join(parts, '.'))
  {
    var head := ItemOid(item);
    SplitUnder(head, parts, '.');
    JoinFree(parts, '.', ' ');
    ItemOidNoSpace(item);
    assert OidUnder(item, parts) == head + ['.'] + Join(parts, '.');
  }

  /** The position of the first character at which the oids of two
      different items differ. */
  function Distinguish(a: Item, b: Item): nat
  {
    var la := a in {LocalMac, LocalSysName, LocalDesc, LocalPortName, LocalMgr};
    var lb := b in {LocalMac, LocalSysName, LocalDesc, LocalPortName, LocalMgr};
    if la != lb then 19
    else if la || a == RemoteAddr || b == RemoteAddr then 21
    else 25
  }

  lemma NotPrefixAt(p: string, o: string, s: string, i: nat)
    requires i < |p| && i < |o| && p[i] != o[i]
    ensures !StartsWith(o + s, p)
  {
    assert (o + s)[i] == o[i];
  }

  lemma {:induction false} FirstPrefixAt(items: seq<Item>, k: nat, oid: string)
    requires k < |items| && StartsWith(oid, ItemOid(items[k]))
    requires forall j :: 0 <= j < k ==> !StartsWith(oid, ItemOid(items[j]))
    ensures FirstPrefix(items, oid) == Some(items[k])
  {
    if k > 0 {
      forall j | 0 <= j < k - 1
        ensures !StartsWith(oid, ItemOid(items[1..][j]))
      {
        assert items[1..][j] == items[j + 1];
      }
      FirstPrefixAt(items[1..], k - 1, oid);
    }
  }

  /** An oid that extends the oid of an item is classified as that item:
      no item compared before it is a prefix. */
  lemma ClassifyItem(item: Item, s: string)
    ensures FirstPrefix(Items, ItemOid(item) + s) == Some(item)
  {
    var oid := ItemOid(item) + s;
    var k := match item
      case LocalMac => 0 case LocalSysName => 1 case LocalDesc => 2 case LocalPortName => 3
      case LocalMgr => 4 case RemoteMac => 5 case RemoteDesc => 6 case RemoteHostName => 7
      case RemoteHostDesc => 8 case RemoteAddr => 9;
    assert Items[k] == item;
    forall j | 0 <= j < k
      ensures !StartsWith(oid, ItemOid(Items[j]))
    {
      NotPrefixAt(ItemOid(Items[j]), ItemOid(item), s, Distinguish(Items[j], item));
    }
    FirstPrefixAt(Items, k, oid);
  }

  /** Four address components joined by dots. */
  lemma DottedQuad(a: string, b: string, c: string, d: string)
    ensures Join([a, b, c, d], '.') == a + "." + b + "." + c + "." + d
  {
    assert [a, b, c, d][1..] == [b, c, d];
    assert [b, c, d][1..] == [c, d];
    assert [c, d][1..] == [d];
    var cd := c + "." + d;
    assert Join([c, d], '.') == cd;
    var bcd := b + "." + cd;
    assert Join([b, c, d], '.') == bcd;
    assert Join([a, b, c, d], '.') == a + "." + bcd;
    assert a + "." + bcd == a + "." + b + "." + c + "." + d;
  }

  /** The scalar a local item sets. */
  function LocalField(l: Local, item: Item): Option<string>
  {
    match item
    case LocalMac => l.mac
    case LocalSysName => l.sysname
    case LocalDesc => l.desc
    case _ => None
  }

  /** A scalar row of the local table (chassis id, system name, system
      description) sets its own field to the stripped text and nothing else. */
  lemma LocalScalarRow(acc: Local, item: Item, tag: string, text: string)
    requires item in {LocalMac, LocalSysName, LocalDesc} && ' ' !in tag
    ensures var r := LocalStep(acc, WalkLine(ItemOid(item), tag, text));
      r.Some? && LocalField(r.value, item) == Some(StripChar(text, '"')) &&
      r.value.indexs == acc.indexs && r.value.mgrs == acc.mgrs &&
      forall other: Item :: other != item ==> LocalField(r.value, other) == LocalField(acc, other)
  {
    ItemOidNoSpace(item);
    WalkLineFields(ItemOid(item), tag, text);
    ClassifyItem(item, "");
    assert ItemOid(item) + "" == ItemOid(item);
  }

  /** A port row `<item>.<port>` names local port `port`: the name is filed
      under the number in the last component. */
  lemma LocalPortRow(acc: Local, port: string, tag: string, text: string)
    requires Number(port) && ' ' !in tag
    ensures LocalStep(acc, WalkLine(OidUnder(LocalPortName, [port]), tag, text))
         == Some(acc.(indexs := acc.indexs[DigitsValue(port) := StripChar(text, '"')]))
  {
    var oid := OidUnder(LocalPortName, [port]);
    OidUnderParts(LocalPortName, [port]);
    WalkLineFields(oid, tag, text);
    ClassifyItem(LocalPortName, "." + Join([port], '.'));
    ParseIntDigits(port);
    var line := WalkLine(oid, tag, text);
    var comps := Split(oid, '.');
    assert comps[|comps| - 1] == comps[|comps| - 1..][0] == port;
    assert FirstPrefix(Items, LineOid(line)) == Some(LocalPortName);
  }

  /** A management-address line whose value parses files the dotted last
      four oid components under that value. */
  lemma LocalMgrStep(acc: Local, line: string, n: int)
    requires FirstPrefix(Items, LineOid(line)) == Some(LocalMgr)
    requires ParseInt(LineValue(line)) == Some(n)
    ensures LocalStep(acc, line)
         == Some(acc.(mgrs := acc.mgrs[n := Join(LastN(Split(LineOid(line), '.'), 4), '.')]))
  {
  }

  /** A neighbour line whose key component parses fills the field of its
      item in the record under that key. */
  lemma RemoteStepKeyed(acc: map<int, Remote>, line: string, item: Item, n: int)
    requires FirstPrefix(Items, LineOid(line)) == Some(item)
    requires var comps := Split(LineOid(line), '.');
      |comps| >= KeyPosition(item) && ParseInt(comps[|comps| - KeyPosition(item)]) == Some(n)
    ensures RemoteStep(acc, line)
         == Some(acc[n := Fill(if n in acc then acc[n] else NoRemote, item, Split(LineOid(line), '.'), LineValue(line))])
  {
  }

  /** What a management-address oid yields: its class and the dotted
      address from its last four components. */
  lemma MgrOidFields(subtype: string, len: string, a: string, b: string, c: string, d: string)
    requires Number(subtype) && Number(len) && Number(a) && Number(b) && Number(c) && Number(d)
    ensures var oid := OidUnder(LocalMgr, [subtype, len, a, b, c, d]);
      ' ' !in oid && FirstPrefix(Items, oid) == Some(LocalMgr) &&
      Join(LastN(Split(oid, '.'), 4), '.') == a + "." + b + "." + c + "." + d
  {
    var parts := [subtype, len, a, b, c, d];
    var oid := OidUnder(LocalMgr, parts);
    OidUnderParts(LocalMgr, parts);
    ClassifyItem(LocalMgr, "." + Join(parts, '.'));
    var comps := Split(oid, '.');
    var tail := comps[|comps| - 6..];
    assert tail == parts;
    assert tail[2..] == [a, b, c, d];
    assert comps[|comps| - 4..] == tail[2..];
    assert LastN(comps, 4) == [a, b, c, d];
    DottedQuad(a, b, c, d);
  }

  /** A management-address row `<item>.<subtype>.<length>.<a>.<b>.<c>.<d>`
      whose value is an interface index files the address `a.b.c.d`, the
      last four components, under that index. */
  lemma LocalMgrRow(acc: Local, subtype: string, len: string, a: string, b: string, c: string, d: string,
                    tag: string, ifIndex: string)
    requires Number(subtype) && Number(len) && Number(a) && Number(b) && Number(c) && Number(d)
    requires Number(ifIndex) && ' ' !in tag
    ensures LocalStep(acc, WalkLine(OidUnder(LocalMgr, [subtype, len, a, b, c, d]), tag, ifIndex))
         == Some(acc.(mgrs := acc.mgrs[DigitsValue(ifIndex) := a + "." + b + "." + c + "." + d]))
  {
    var oid := OidUnder(LocalMgr, [subtype, len, a, b, c, d]);
    MgrOidFields(subtype, len, a, b, c, d);
    WalkLineFields(oid, tag, ifIndex);
    assert StripChar(ifIndex, '"') == ifIndex by {
      assert IsDigit(ifIndex[0]) && IsDigit(ifIndex[|ifIndex| - 1]);
    }
    ParseIntDigits(ifIndex);
    LocalMgrStep(acc, WalkLine(oid, tag, ifIndex), DigitsValue(ifIndex));
  }

  /** A text row sets its own field of the record and no other. */
  lemma FillField(rec: Remote, item: Item, comps: seq<string>, result: string)
    requires item in {RemoteMac, RemoteDesc, RemoteHostName, RemoteHostDesc}
    ensures RemoteField(Fill(rec, item, comps, result), item) == Some(result)
    ensures forall other: Item :: other != item ==>
      RemoteField(Fill(rec, item, comps, result), other) == RemoteField(rec, other)
  {
  }

  /** What a neighbour field oid yields: its class and the local port
      second from the end. */
  lemma FieldOidFields(item: Item, timeMark: string, port: string, index: string)
    requires Number(timeMark) && Number(port) && Number(index)
    ensures var oid := OidUnder(item, [timeMark, port, index]);
      var comps := Split(oid, '.');
      ' ' !in oid && FirstPrefix(Items, oid) == Some(item) &&
      |comps| >= 2 && comps[|comps| - 2] == port
  {
    var parts := [timeMark, port, index];
    var oid := OidUnder(item, parts);
    OidUnderParts(item, parts);
    ClassifyItem(item, "." + Join(parts, '.'));
    var comps := Split(oid, '.');
    var tail := comps[|comps| - 3..];
    assert tail == parts;
    assert comps[|comps| - 2] == tail[1];
  }

  /** A neighbour row `<item>.<time mark>.<local port>.<neighbour index>`
      is filed under the local port number, the second-to-last component,
      in the field its item names; other records and other fields stay as
      they were. */
  lemma RemoteFieldRow(acc: map<int, Remote>, item: Item, timeMark: string, port: string, index: string,
                       tag: string, text: string)
    requires item in {RemoteMac, RemoteDesc, RemoteHostName, RemoteHostDesc}
    requires Number(timeMark) && Number(port) && Number(index) && ' ' !in tag
    ensures var r := RemoteStep(acc, WalkLine(OidUnder(item, [timeMark, port, index]), tag, text));
      var n := DigitsValue(port);
      var before := if n in acc then acc[n] else NoRemote;
      r.Some? && r.value.Keys == acc.Keys + {n} &&
      (forall i :: i in acc && i != n ==> r.value[i] == acc[i]) &&
      RemoteField(r.value[n], item) == Some(StripChar(text, '"')) &&
      forall other: Item :: other != item ==> RemoteField(r.value[n], other) == RemoteField(before, other)
  {
    var oid := OidUnder(item, [timeMark, port, index]);
    var line := WalkLine(oid, tag, text);
    var n := DigitsValue(port);
    var before := if n in acc then acc[n] else NoRemote;
    var value := StripChar(text, '"');
    assert RemoteStep(acc, line) == Some(acc[n := Fill(before, item, Split(oid, '.'), value)]) by {
      FieldOidFields(item, timeMark, port, index);
      WalkLineFields(oid, tag, text);
      ParseIntDigits(port);
      RemoteStepKeyed(acc, line, item, n);
    }
    FillField(before, item, Split(oid, '.'), value);
  }

  /** What the address row's oid yields: its class, the local port eighth
      from the end and the dotted address from its last four components. */
  lemma AddrOidFields(timeMark: string, port: string, index: string,
                      subtype: string, len: string, a: string, b: string, c: string, d: string)
    requires Number(timeMark) && Number(port) && Number(index) && Number(subtype) && Number(len)
    requires Number(a) && Number(b) && Number(c) && Number(d)
    ensures var oid := OidUnder(RemoteAddr, [timeMark, port, index, subtype, len, a, b, c, d]);
      var comps := Split(oid, '.');
      ' ' !in oid && FirstPrefix(Items, oid) == Some(RemoteAddr) &&
      |comps| >= 8 && comps[|comps| - 8] == port &&
      Join(LastN(comps, 4), '.') == a + "." + b + "." + c + "." + d
  {
    var parts := [timeMark, port, index, subtype, len, a, b, c, d];
    var oid := OidUnder(RemoteAddr, parts);
    OidUnderParts(RemoteAddr, parts);
    ClassifyItem(RemoteAddr, "." + Join(parts, '.'));
    var comps := Split(oid, '.');
    var tail := comps[|comps| - 9..];
    assert tail == parts;
    assert comps[|comps| - 8] == tail[1];
    assert tail[5..] == [a, b, c, d];
    assert comps[|comps| - 4..] == tail[5..];
    assert LastN(comps, 4) == [a, b, c, d];
    DottedQuad(a, b, c, d);
  }

  /** A neighbour address row `<item>.<time mark>.<local port>.<neighbour
      index>.<subtype>.<length>.<a>.<b>.<c>.<d>` is filed under the local
      port number, eighth from the end, and its last four components become
      the neighbour's address `a.b.c.d`; nothing else changes. */
  lemma RemoteAddrRow(acc: map<int, Remote>, timeMark: string, port: string, index: string,
                      subtype: string, len: string, a: string, b: string, c: string, d: string,
                      tag: string, text: string)
    requires Number(timeMark) && Number(port) && Number(index) && Number(subtype) && Number(len)
    requires Number(a) && Number(b) && Number(c) && Number(d) && ' ' !in tag
    ensures var r := RemoteStep(acc, WalkLine(OidUnder(RemoteAddr, [timeMark, port, index, subtype, len, a, b, c, d]), tag, text));
      var n := DigitsValue(port);
      var before := if n in acc then acc[n] else NoRemote;
      r.Some? && r.value.Keys == acc.Keys + {n} &&
      (forall i :: i in acc && i != n ==> r.value[i] == acc[i]) &&
      r.value[n] == before.(ip := Some(a + "." + b + "." + c + "." + d))
  {
    var oid := OidUnder(RemoteAddr, [timeMark, port, index, subtype, len, a, b, c, d]);
    AddrOidFields(timeMark, port, index, subtype, len, a, b, c, d);
    WalkLineFields(oid, tag, text);
    ParseIntDigits(port);
    RemoteStepKeyed(acc, WalkLine(oid, tag, text), RemoteAddr, DigitsValue(port));
  }
}
