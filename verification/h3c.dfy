/** The NETCONF driver for H3C switches (`H3CNetConfDriver`). Each
    configuration template becomes an `Op` record; the switch is a `Device`
    function from what it has been sent so far and the new request to its
    reply; the clock and the outcome of an SSH connect are parameters. */
module H3c {
  import opened Text
  import opened Faults

  /** One filled-in configuration template, by the builder that fills it. */
  datatype Op =
    | CreateVsi(vsiName: string)                            // `_create_vsi_xml`: VSI, operation "merge"
    | DeleteVsi(vsiName: string)                            // `_delete_vsi_xml`: VSI, operation "remove"
    | CreateVxlan(vxlanId: int, vsiName: string)            // `_create_vxlan_xml`
    | DeleteVxlan(vxlanId: int)                             // `_delete_vxlan_xml`
    | EditVxlan(vxlanId: int, tunnelId: int)                // `_edit_vxlan_xml`: bind a tunnel to a VXLAN
    | CreateTunnel(tunnelId: int, srcAddr: string, dstAddr: string)  // `_create_tunnel_xml`
    | DeleteTunnel(tunnelId: int)                           // `_delete_tunnel_xml`
    | CreateAc(ifIndex: Option<int>, serviceId: int, vsiName: string) // `_create_port_ac_xml`
    | DeleteAc(ifIndex: Option<int>, serviceId: int)        // `_delete_port_ac_xml`
    | CreateService(ifIndex: Option<int>, serviceId: int, sVid: int)  // `_create_service_xml`
    | DeleteService(ifIndex: Option<int>, serviceId: int)    // `_delete_service_xml`

  /** An `edit_config` of one template, or the `get` of the available tunnel id. */
  datatype Request = Edit(op: Op) | GetAvailableTunnelId

  /** A request sent over the session to switch `mgr`. */
  datatype Sent = Sent(mgr: string, request: Request)

  /** The switches' side: given everything sent so far and a new request,
      the reply text (for a `get`, the reply document pretty-printed), or
      `None` when the call raises. */
  type Device = (seq<Sent>, Sent) -> Option<string>

  /** `int(x)` on a float: truncation toward zero. */
  function Trunc(x: real): int
  {
    if x >= 0.0 then x.Floor else -((-x).Floor)
  }

  /** A session is stale (`expired > 30`) exactly from 31 seconds on. */
  lemma StaleFrom31(elapsed: real)
    ensures Trunc(elapsed) > 30 <==> elapsed >= 31.0
  {
    if elapsed >= 0.0 {
      assert elapsed.Floor as real <= elapsed < elapsed.Floor as real + 1.0;
    } else {
      assert (-elapsed).Floor >= 0;
    }
  }

  /** `_check_resp`: the reply reports success when "ok" occurs in it. */
  function CheckResp(reply: string): (ok: bool)
    ensures ok <==> exists i :: OccursAt(reply, "ok", i)
  {
    ContainsIff(reply, "ok");
    Contains(reply, "ok")
  }

  /** `replace_id`: the line without its `<ID>` and `</ID>` tags. */
  function RemoveIdTags(line: string): string
  {
    Replace(Replace(line, "<ID>", ""), "</ID>", "")
  }

  predicate IsIdLine(line: string)
  {
    StartsWith(Strip(line), "<ID>")
  }

  /** What the scan of `_get_avaliable_tunnel_id` leaves in `id`: the last
      line that starts with `<ID>` once stripped, without its tags. */
  function LastIdLine(lines: seq<string>): Option<string>
  {
    if |lines| == 0 then None
    else if IsIdLine(lines[|lines| - 1]) then Some(RemoveIdTags(Strip(lines[|lines| - 1])))
    else LastIdLine(lines[..|lines| - 1])
  }

  /** `LastIdLine` finds nothing exactly when no line is an `<ID>` line,
      and otherwise takes the last one. */
  lemma {:induction false} LastIdLineIsLast(lines: seq<string>)
    ensures LastIdLine(lines).None? <==> forall k :: 0 <= k < |lines| ==> !IsIdLine(lines[k])
    ensures LastIdLine(lines).Some? ==>
      exists k :: 0 <= k < |lines| && IsIdLine(lines[k])
        && LastIdLine(lines).value == RemoveIdTags(Strip(lines[k]))
        && forall j :: k < j < |lines| ==> !IsIdLine(lines[j])
  {
    if |lines| > 0 && !IsIdLine(lines[|lines| - 1]) {
      var init := lines[..|lines| - 1];
      LastIdLineIsLast(init);
      assert forall k :: 0 <= k < |init| ==> init[k] == lines[k];
    }
  }

  /** The tunnel id `_get_avaliable_tunnel_id` returns for a reply: -1
      when the `get` failed or no `<ID>` line came back, `ValueError` when
      the last one does not hold a number. */
  function TunnelIdOf(reply: Option<string>): (r: Result<int>)
    ensures reply.None? ==> r == Ok(-1)
  {
    if reply.None? then Ok(-1)
    else match LastIdLine(Split(reply.value, '\n'))
      case None => Ok(-1)
      case Some(text) =>
        match ParseInt(text)
        case None => Err(ValueError)
        case Some(v) => Ok(v)
  }

  /** A reply of two lines whose second is the only `<ID>` line yields
      that line's text. */
  lemma LastIdOfTwo(before: string, line: string)
    requires '\n' !in before && '\n' !in line
    requires !IsIdLine(before) && IsIdLine(line)
    ensures LastIdLine(Split(before + ['\n'] + line, '\n')) == Some(RemoveIdTags(Strip(line)))
  {
    SplitAppend(before, line, '\n');
    SplitNoSep(before, '\n');
    SplitNoSep(line, '\n');
    var lines := Split(before + ['\n'] + line, '\n');
    assert lines == [before, line];
  }

  /** A reply whose only `<ID>` line carries a number yields that number. */
  lemma TunnelIdOfNumber(before: string, n: nat)
    requires '\n' !in before && !IsIdLine(before)
    ensures TunnelIdOf(Some(before + "\n" + "<ID>" + IntToString(n) + "</ID>")) == Ok(n)
  {
    var digits := IntToString(n);
    DigitsRoundTrip(n);
    var line := "<ID>" + digits + "</ID>";
    assert '\n' !in line by {
      assert forall c :: c in digits ==> IsDigit(c);
    }
    assert Strip(line) == line;
    assert IsIdLine(line) by {
      assert "<ID>" <= line;
    }
    assert before + "\n" + "<ID>" + digits + "</ID>" == before + ['\n'] + line;
    LastIdOfTwo(before, line);
    ReplaceTags(digits);
    ParseIntDigits(digits);
  }

  /** Removing the tags around a run of digits leaves the digits. */
  lemma ReplaceTags(digits: string)
    requires AllDigits(digits)
    ensures RemoveIdTags("<ID>" + digits + "</ID>") == digits
  {
    var s := "<ID>" + digits + "</ID>";
    assert "<ID>" <= s;
    assert s[4..] == digits + "</ID>";
    assert Replace(s, "<ID>", "") == "" + Replace(digits + "</ID>", "<ID>", "");
    NoOpenTag(digits);
    assert "" + (digits + "</ID>") == digits + "</ID>";
    CloseTagAfterDigits(digits);
  }

  /** A run of digits followed by `</ID>` holds no `<ID>`. */
  lemma {:induction false} NoOpenTag(digits: string)
    requires AllDigits(digits)
    ensures Replace(digits + "</ID>", "<ID>", "") == digits + "</ID>"
  {
    var s := digits + "</ID>";
    if |digits| == 0 {
      assert s == "</ID>";
      assert !("<ID>" <= s) by {
        assert s[1] != "<ID>"[1];
      }
      assert s[1..] == "/ID>";
      assert !("<ID>" <= "/ID>") by {
        assert "/ID>"[0] != "<ID>"[0];
      }
      assert "/ID>"[1..] == "ID>";
      assert Replace("/ID>", "<ID>", "") == "/" + Replace("ID>", "<ID>", "");
    } else {
      assert !("<ID>" <= s) by {
        assert s[0] == digits[0];
      }
      assert s[1..] == digits[1..] + "</ID>";
      NoOpenTag(digits[1..]);
    }
  }

  /** Dropping `</ID>` after a run of digits leaves the digits. */
  lemma {:induction false} CloseTagAfterDigits(digits: string)
    requires AllDigits(digits)
    ensures Replace(digits + "</ID>", "</ID>", "") == digits
  {
    var s := digits + "</ID>";
    if |digits| == 0 {
      assert s == "</ID>";
    } else {
      assert !("</ID>" <= s) by {
        assert s[0] == digits[0];
      }
      assert s[1..] == digits[1..] + "</ID>";
      CloseTagAfterDigits(digits[1..]);
    }
  }

  /** The bindings `ensureVxlanWithTunnel` makes: for each VXLAN in turn,
      one per tunnel. */
  function EditPairs(vxlans: seq<int>, tunnelIds: seq<int>): seq<Op>
  {
    if |vxlans| == 0 then []
    else EditPairs(vxlans[..|vxlans| - 1], tunnelIds) + EditsFor(vxlans[|vxlans| - 1], tunnelIds)
  }

  function EditsFor(vxlan: int, tunnelIds: seq<int>): (ops: seq<Op>)
    ensures |ops| == |tunnelIds|
    ensures forall j :: 0 <= j < |tunnelIds| ==> ops[j] == EditVxlan(vxlan, tunnelIds[j])
  {
    seq(|tunnelIds|, j requires 0 <= j < |tunnelIds| => EditVxlan(vxlan, tunnelIds[j]))
  }

  /** One binding per (VXLAN, tunnel) pair. */
  lemma {:induction false} EditPairsLength(vxlans: seq<int>, tunnelIds: seq<int>)
    ensures |EditPairs(vxlans, tunnelIds)| == |vxlans| * |tunnelIds|
  {
    if |vxlans| > 0 {
      var init := vxlans[..|vxlans| - 1];
      EditPairsLength(init, tunnelIds);
      assert |vxlans| * |tunnelIds| == |init| * |tunnelIds| + |tunnelIds|;
    }
  }

  /** The binding of pair (`i`, `j`) sits at `i * |tunnelIds| + j`. */
  lemma {:induction false} EditPairsAt(vxlans: seq<int>, tunnelIds: seq<int>, i: nat, j: nat)
    requires i < |vxlans| && j < |tunnelIds|
    ensures i * |tunnelIds| + j < |EditPairs(vxlans, tunnelIds)|
    ensures EditPairs(vxlans, tunnelIds)[i * |tunnelIds| + j] == EditVxlan(vxlans[i], tunnelIds[j])
  {
    var n := |tunnelIds|;
    var init := vxlans[..|vxlans| - 1];
    EditPairsLength(init, tunnelIds);
    EditPairsLength(vxlans, tunnelIds);
    if i < |init| {
      EditPairsAt(init, tunnelIds, i, j);
      assert init[i] == vxlans[i];
    } else {
      assert i * n == |EditPairs(init, tunnelIds)|;
    }
  }

  /** Exactly one binding per (VXLAN, tunnel) pair, VXLAN-major. */
  lemma {:induction false} EditPairsIndex(vxlans: seq<int>, tunnelIds: seq<int>)
    ensures |EditPairs(vxlans, tunnelIds)| == |vxlans| * |tunnelIds|
    ensures forall i, j :: 0 <= i < |vxlans| && 0 <= j < |tunnelIds| ==>
      EditPairs(vxlans, tunnelIds)[i * |tunnelIds| + j] == EditVxlan(vxlans[i], tunnelIds[j])
  {
    EditPairsLength(vxlans, tunnelIds);
    forall i, j | 0 <= i < |vxlans| && 0 <= j < |tunnelIds|
      ensures i * |tunnelIds| + j < |EditPairs(vxlans, tunnelIds)| &&
              EditPairs(vxlans, tunnelIds)[i * |tunnelIds| + j] == EditVxlan(vxlans[i], tunnelIds[j])
    {
      EditPairsAt(vxlans, tunnelIds, i, j);
    }
  }

  /** What `_operation` sends for each of `ops`: an edit to the switch
      whose session is live, nothing when there is none. */
  function SendsTo(target: Option<string>, ops: seq<Op>): (s: seq<Sent>)
    ensures target.None? ==> s == []
    ensures target.Some? ==> |s| == |ops|
    ensures target.Some? ==> forall k :: 0 <= k < |ops| ==> s[k] == Sent(target.value, Edit(ops[k]))
  {
    if target.None? then []
    else seq(|ops|, k requires 0 <= k < |ops| => Sent(target.value, Edit(ops[k])))
  }

  lemma SendsToAppend(target: Option<string>, a: seq<Op>, b: seq<Op>)
    ensures SendsTo(target, a + b) == SendsTo(target, a) + SendsTo(target, b)
  {
    if target.Some? {
      var whole := SendsTo(target, a + b);
      var parts := SendsTo(target, a) + SendsTo(target, b);
      forall k | 0 <= k < |whole|
        ensures whole[k] == parts[k]
      {
        if k >= |a| {
          assert (a + b)[k] == b[k - |a|];
        }
      }
    }
  }

  class H3CNetConfDriver {
    /** The cached sessions: `true` for a live one, `false` for the
        `None` placeholder `initialize` puts in first. */
    var conn: map<string, bool>
    var mgr: Option<string>
    var user: Option<string>
    var passwd: Option<string>
    /** When the last session was opened, for every switch at once. */
    var timestamp: real
    /** Everything sent to the switches, in order. */
    var sent: seq<Sent>
    const device: Device

    constructor(device: Device, now: real)
      ensures conn == map[] && mgr == None && user == None && passwd == None
      ensures timestamp == now && sent == [] && this.device == device
    {
      conn := map[];
      mgr := None;
      user := None;
      passwd := None;
      timestamp := now;
      sent := [];
      this.device := device;
    }

    /** The switch requests go to: the current one when its session is
        live, none otherwise. */
    function Target(): (t: Option<string>)
      reads this
      ensures t.Some? <==> mgr.Some? && mgr.value in conn && conn[mgr.value]
      ensures t.Some? ==> t == mgr
    {
      if mgr.Some? && mgr.value in conn && conn[mgr.value] then mgr else None
    }

    /** The reply the switch gives to the tunnel-id `get`, `None` when no
        session is live. */
    function AvailableReply(): Option<string>
      reads this
    {
      if Target().Some? then device(sent, Sent(Target().value, GetAvailableTunnelId)) else None
    }

    /** `initialize`: remember the switch and credentials, and reconnect
        when the switch has no live session or the last connect is more
        than 30 seconds old. `connected` is the outcome of the SSH connect
        and `later` the clock after it; a failed connect returns false and
        keeps the old session. */
    method Initialize(m: string, u: string, p: string, now: real, connected: bool, later: real)
      returns (ok: bool)
      modifies this
      ensures mgr == Some(m) && user == Some(u) && passwd == Some(p)
      ensures sent == old(sent)
      ensures var reconnect := m !in old(conn) || !old(conn)[m] || Trunc(now - old(timestamp)) > 30;
        && ok == (!reconnect || connected)
        && (reconnect && connected ==> conn == old(conn)[m := true] && timestamp == later)
        && (!(reconnect && connected) ==>
              conn == (if m in old(conn) then old(conn) else old(conn)[m := false])
              && timestamp == old(timestamp))
    {
      mgr, user, passwd := Some(m), Some(u), Some(p);
      if m !in conn {
        conn := conn[m := false];
      }
      var expired := Trunc(now - timestamp);
      if !conn[m] || expired > 30 {
        if !connected {
          return false;
        }
        conn := conn[m := true];
        timestamp := later;
      }
      ok := true;
    }

    /** Whether edit `op`, sent to `target` after everything in `log`, is
        answered with a reply that holds "ok"; never without a session. */
    function Accepts(log: seq<Sent>, target: Option<string>, op: Op): bool
    {
      target.Some? &&
      var reply := device(log, Sent(target.value, Edit(op)));
      reply.Some? && CheckResp(reply.value)
    }

    /** `_operation`: send one template over the live session; false when
        there is none, when the call raises, or when the reply lacks "ok". */
    method Operation(op: Op) returns (ok: bool)
      modifies this
      ensures conn == old(conn) && mgr == old(mgr) && user == old(user)
      ensures passwd == old(passwd) && timestamp == old(timestamp)
      ensures sent == old(sent) + SendsTo(old(Target()), [op])
      ensures ok <==> Accepts(old(sent), old(Target()), op)
    {
      if Target().None? {
        return false;
      }
      var request := Sent(mgr.value, Edit(op));
      var reply := device(sent, request);
      sent := sent + [request];
      ok := reply.Some? && CheckResp(reply.value);
    }

    /** `_get_avaliable_tunnel_id`: the id in the last `<ID>` line of the
        switch's reply. */
    method AvailableTunnelId() returns (r: Result<int>)
      modifies this
      ensures conn == old(conn) && mgr == old(mgr) && user == old(user)
      ensures passwd == old(passwd) && timestamp == old(timestamp)
      ensures sent == old(sent) + if old(Target()).Some? then [Sent(old(Target()).value, GetAvailableTunnelId)] else []
      ensures r == TunnelIdOf(old(AvailableReply()))
    {
      if Target().None? {
        return Ok(-1);
      }
      var request := Sent(mgr.value, GetAvailableTunnelId);
      var reply := device(sent, request);
      sent := sent + [request];
      if reply.None? {
        return Ok(-1);
      }
      var lines := Split(reply.value, '\n');
      var id: Option<string> := None;
      var k := 0;
      while k < |lines|
        invariant 0 <= k <= |lines|
        invariant id == LastIdLine(lines[..k])
      {
        assert lines[..k + 1][..k] == lines[..k];
        var line := Strip(lines[k]);
        if StartsWith(line, "<ID>") {
          id := Some(RemoveIdTags(line));
        }
        k := k + 1;
      }
      assert lines[..k] == lines;
      if id.None? {
        return Ok(-1);
      }
      var v := ParseInt(id.value);
      if v.None? {
        return Err(ValueError);
      }
      r := Ok(v.value);
    }

    /** `newtunnel`: (false, -1) and no create when no tunnel id is
        available; otherwise the create's outcome and the id. A malformed
        id escapes as `ValueError`. */
    method NewTunnel(src: string, dst: string) returns (r: Result<(bool, int)>)
      modifies this
      ensures conn == old(conn) && mgr == old(mgr) && timestamp == old(timestamp)
      ensures var id := TunnelIdOf(old(AvailableReply()));
        var asked := if old(Target()).Some? then [Sent(old(Target()).value, GetAvailableTunnelId)] else [];
        && (id.Err? ==> r == Err(id.fault) && sent == old(sent) + asked)
        && (id == Ok(-1) ==> r == Ok((false, -1)) && sent == old(sent) + asked)
        && (id.Ok? && id.value != -1 ==>
              r.Ok? && r.value.1 == id.value
              && (r.value.0 <==> Accepts(old(sent) + asked, old(Target()), CreateTunnel(id.value, src, dst)))
              && sent == old(sent) + asked + SendsTo(old(Target()), [CreateTunnel(id.value, src, dst)]))
    {
      var id := AvailableTunnelId();
      if id.Err? {
        return Err(id.fault);
      }
      if id.value == -1 {
        return Ok((false, -1));
      }
      var ok := Operation(CreateTunnel(id.value, src, dst));
      r := Ok((ok, id.value));
    }

    /** `deletetunnel`: one delete op. */
    method DeleteTunnelById(tunnelId: int) returns (ok: bool)
      modifies this
      ensures conn == old(conn) && mgr == old(mgr) && timestamp == old(timestamp)
      ensures sent == old(sent) + SendsTo(old(Target()), [DeleteTunnel(tunnelId)])
      ensures ok <==> Accepts(old(sent), old(Target()), DeleteTunnel(tunnelId))
    {
      ok := Operation(DeleteTunnel(tunnelId));
    }

    /** `newvlan2vxlan`: VSI, VXLAN, service, AC, in that order; true
        whatever each op returns. */
    method NewVlan2Vxlan(index: Option<int>, vlan: int, vxlan: int) returns (ok: bool)
      modifies this
      ensures conn == old(conn) && mgr == old(mgr) && timestamp == old(timestamp)
      ensures ok
      ensures var vsi := "vsi" + IntToString(vxlan);
        sent == old(sent) + SendsTo(old(Target()), [CreateVsi(vsi), CreateVxlan(vxlan, vsi),
                                                    CreateService(index, vlan, vlan), CreateAc(index, vlan, vsi)])
    {
      var vsi := "vsi" + IntToString(vxlan);
      ghost var target := Target();
      var _ := Operation(CreateVsi(vsi));
      var _ := Operation(CreateVxlan(vxlan, vsi));
      var _ := Operation(CreateService(index, vlan, vlan));
      var _ := Operation(CreateAc(index, vlan, vsi));
      Four(target, CreateVsi(vsi), CreateVxlan(vxlan, vsi), CreateService(index, vlan, vlan), CreateAc(index, vlan, vsi));
      ok := true;
    }

    /** `deletevlan2vxlan`: AC and service; then, unless `onlyIndex`,
        VXLAN and VSI. Always true. */
    method DeleteVlan2Vxlan(index: Option<int>, vlan: int, vxlan: int, onlyIndex: bool) returns (ok: bool)
      modifies this
      ensures conn == old(conn) && mgr == old(mgr) && timestamp == old(timestamp)
      ensures ok
      ensures var vsi := "vsi" + IntToString(vxlan);
        sent == old(sent) + SendsTo(old(Target()), if onlyIndex then [DeleteAc(index, vlan), DeleteService(index, vlan)]
                                                   else [DeleteAc(index, vlan), DeleteService(index, vlan),
                                                         DeleteVxlan(vxlan), DeleteVsi(vsi)])
    {
      var vsi := "vsi" + IntToString(vxlan);
      ghost var target := Target();
      var _ := Operation(DeleteAc(index, vlan));
      var _ := Operation(DeleteService(index, vlan));
      SendsToAppend(target, [DeleteAc(index, vlan)], [DeleteService(index, vlan)]);
      if onlyIndex {
        return true;
      }
      var _ := Operation(DeleteVxlan(vxlan));
      var _ := Operation(DeleteVsi(vsi));
      Four(target, DeleteAc(index, vlan), DeleteService(index, vlan), DeleteVxlan(vxlan), DeleteVsi(vsi));
      ok := true;
    }

    /** `ensureVxlanWithTunnel`: bind every tunnel to every VXLAN,
        VXLAN-major. Always true. */
    method EnsureVxlanWithTunnel(vxlans: seq<int>, tunnelIds: seq<int>) returns (ok: bool)
      modifies this
      ensures conn == old(conn) && mgr == old(mgr) && timestamp == old(timestamp)
      ensures ok
      ensures sent == old(sent) + SendsTo(old(Target()), EditPairs(vxlans, tunnelIds))
    {
      ghost var target := Target();
      var i := 0;
      while i < |vxlans|
        invariant 0 <= i <= |vxlans|
        invariant conn == old(conn) && mgr == old(mgr) && timestamp == old(timestamp)
        invariant sent == old(sent) + SendsTo(target, EditPairs(vxlans[..i], tunnelIds))
      {
        ghost var done := SendsTo(target, EditPairs(vxlans[..i], tunnelIds));
        ghost var step := SendsTo(target, EditsFor(vxlans[i], tunnelIds));
        BindTunnels(vxlans[i], tunnelIds);
        assert sent == (old(sent) + done) + step;
        assert SendsTo(target, EditPairs(vxlans[..i + 1], tunnelIds)) == done + step by {
          EditPairsStep(vxlans, tunnelIds, i);
          SendsToAppend(target, EditPairs(vxlans[..i], tunnelIds), EditsFor(vxlans[i], tunnelIds));
        }
        Assoc(old(sent), done, step);
        i := i + 1;
      }
      assert vxlans[..i] == vxlans;
      ok := true;
    }

    /** The inner loop of `ensureVxlanWithTunnel`: bind each tunnel to
        one VXLAN. */
    method BindTunnels(vxlan: int, tunnelIds: seq<int>)
      modifies this
      ensures conn == old(conn) && mgr == old(mgr) && timestamp == old(timestamp)
      ensures sent == old(sent) + SendsTo(old(Target()), EditsFor(vxlan, tunnelIds))
    {
      ghost var target := Target();
      var j := 0;
      while j < |tunnelIds|
        invariant 0 <= j <= |tunnelIds|
        invariant conn == old(conn) && mgr == old(mgr) && timestamp == old(timestamp)
        invariant sent == old(sent) + SendsTo(target, EditsFor(vxlan, tunnelIds[..j]))
      {
        var _ := Operation(EditVxlan(vxlan, tunnelIds[j]));
        EditsForStep(vxlan, tunnelIds, j);
        SendsToAppend(target, EditsFor(vxlan, tunnelIds[..j]), [EditVxlan(vxlan, tunnelIds[j])]);
        j := j + 1;
      }
      assert tunnelIds[..j] == tunnelIds;
    }
  }

  lemma Assoc<T>(a: seq<T>, b: seq<T>, c: seq<T>)
    ensures (a + b) + c == a + (b + c)
  {
  }

  /** Four single sends make one send of the four. */
  lemma Four(target: Option<string>, a: Op, b: Op, c: Op, d: Op)
    ensures SendsTo(target, [a]) + SendsTo(target, [b]) + SendsTo(target, [c]) + SendsTo(target, [d])
         == SendsTo(target, [a, b, c, d])
  {
  }

  lemma EditsForStep(vxlan: int, tunnelIds: seq<int>, j: nat)
    requires j < |tunnelIds|
    ensures EditsFor(vxlan, tunnelIds[..j + 1]) == EditsFor(vxlan, tunnelIds[..j]) + [EditVxlan(vxlan, tunnelIds[j])]
  {
  }

  lemma EditPairsStep(vxlans: seq<int>, tunnelIds: seq<int>, i: nat)
    requires i < |vxlans|
    ensures EditPairs(vxlans[..i + 1], tunnelIds) == EditPairs(vxlans[..i], tunnelIds) + EditsFor(vxlans[i], tunnelIds)
  {
    assert vxlans[..i + 1][..i] == vxlans[..i];
  }
}
