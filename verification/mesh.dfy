/** The tunnel mesh between the switches, as `delete_tor` and
    `create_tor` (sapi.py) tear it down and build it: the driver calls each
    makes, in order and up to the first failure, and the tunnel rows it
    drops or saves. */
module Mesh {
  import opened Faults
  import opened Tables
  import opened LvTables
  import opened Drivers
  import opened Outcomes

  /** The calls that remove tunnel `id` from switch `mgr`. */
  function TeardownCalls(mgr: string, id: int): seq<Call>
  {
    [Initialize(mgr, User, Passwd), DeleteTunnel(id)]
  }

  /** Lines 284-290: for each tunnel in turn, the calls that remove it
      from switch `mgr` through the driver of type `t`, up to the first
      refusal; what is logged and how the loop ends. */
  function OwnTeardown(d: map<string, Driver>, log: seq<Issued>, t: string, mgr: string, ts: seq<Tunnel>)
    : (seq<Issued>, Outcome)
    decreases |ts|
  {
    if |ts| == 0 then ([], Success)
    else
      var first := OwnTeardown(d, log, t, mgr, ts[..|ts| - 1]);
      if first.1.Failure? then first
      else
        var last := Run(d, log + first.0, t, TeardownCalls(mgr, ts[|ts| - 1].tunnelId));
        (first.0 + last.0, Raised(last.1))
  }

  /** One more tunnel: the loop of lines 284-290 goes on from where it was. */
  lemma OwnTeardownStep(d: map<string, Driver>, log: seq<Issued>, t: string, mgr: string, ts: seq<Tunnel>, i: nat)
    requires i < |ts|
    ensures var first := OwnTeardown(d, log, t, mgr, ts[..i]);
      OwnTeardown(d, log, t, mgr, ts[..i + 1]) ==
        if first.1.Failure? then first
        else
          var last := Run(d, log + first.0, t, TeardownCalls(mgr, ts[i].tunnelId));
          (first.0 + last.0, Raised(last.1))
  {
    assert ts[..i + 1][..i] == ts[..i];
  }

  /** Once the loop has failed, the later tunnels change nothing. */
  lemma {:induction false} OwnTeardownStops(d: map<string, Driver>, log: seq<Issued>, t: string, mgr: string,
                                            ts: seq<Tunnel>, j: nat)
    requires j <= |ts| && OwnTeardown(d, log, t, mgr, ts[..j]).1.Failure?
    ensures OwnTeardown(d, log, t, mgr, ts) == OwnTeardown(d, log, t, mgr, ts[..j])
    decreases |ts| - j
  {
    if j < |ts| {
      OwnTeardownStep(d, log, t, mgr, ts, j);
      OwnTeardownStops(d, log, t, mgr, ts, j + 1);
    } else {
      assert ts[..j] == ts;
    }
  }

  /** The (switch, tunnel id) pairs of some tunnel rows. */
  function Pairs(ts: seq<Tunnel>): (p: set<(string, int)>)
    decreases |ts|
  {
    if |ts| == 0 then {} else Pairs(ts[..|ts| - 1]) + {(ts[|ts| - 1].torIp, ts[|ts| - 1].tunnelId)}
  }

  /** One more row moved onto `mgr`, one more pair. */
  lemma PairsStep(ts: seq<Tunnel>, i: nat, mgr: string)
    requires i < |ts|
    ensures Pairs(Retarget(ts[..i + 1], mgr)) == Pairs(Retarget(ts[..i], mgr)) + {(mgr, ts[i].tunnelId)}
  {
    assert Retarget(ts[..i + 1], mgr)[..i] == Retarget(ts[..i], mgr);
  }

  /** One more row, one more pair. */
  lemma PairsNext(ts: seq<Tunnel>, i: nat)
    requires i < |ts|
    ensures Pairs(ts[..i + 1]) == Pairs(ts[..i]) + {(ts[i].torIp, ts[i].tunnelId)}
  {
    assert ts[..i + 1][..i] == ts[..i];
  }

  /** Every row of `ts` has its pair in `Pairs(ts)`, and no other pair is. */
  lemma {:induction false} PairsOf(ts: seq<Tunnel>)
    ensures forall x :: x in ts ==> (x.torIp, x.tunnelId) in Pairs(ts)
    ensures forall p :: p in Pairs(ts) ==> exists x :: x in ts && p == (x.torIp, x.tunnelId)
    decreases |ts|
  {
    if |ts| > 0 {
      var init := ts[..|ts| - 1];
      PairsOf(init);
      assert ts == init + [ts[|ts| - 1]];
      forall p | p in Pairs(ts)
        ensures exists x :: x in ts && p == (x.torIp, x.tunnelId)
      {
        if p in Pairs(init) {
          var x :| x in init && p == (x.torIp, x.tunnelId);
          assert x in ts;
        } else {
          assert ts[|ts| - 1] in ts;
        }
      }
    }
  }

  /** The rows of `ts` moved onto switch `mgr`. */
  function Retarget(ts: seq<Tunnel>, mgr: string): (us: seq<Tunnel>)
    ensures |us| == |ts|
    ensures forall k :: 0 <= k < |ts| ==> us[k] == ts[k].(torIp := mgr)
  {
    seq(|ts|, k requires 0 <= k < |ts| => ts[k].(torIp := mgr))
  }

  /** The tunnel rows whose pair is in `gone` are gone, the others stay. */
  ghost predicate TunnelsDropped(tunnels0: seq<Tunnel>, tunnels: seq<Tunnel>, gone: set<(string, int)>)
  {
    forall x :: x in tunnels <==> x in tunnels0 && (x.torIp, x.tunnelId) !in gone
  }

  /** Dropping in two steps is dropping the union. */
  lemma DroppedTwice(t0: seq<Tunnel>, t1: seq<Tunnel>, t2: seq<Tunnel>, g1: set<(string, int)>, g2: set<(string, int)>)
    requires TunnelsDropped(t0, t1, g1) && TunnelsDropped(t1, t2, g2)
    ensures TunnelsDropped(t0, t2, g1 + g2)
  {
  }

  /** Lines 293-300: for each tunnel towards the removed switch in turn,
      the type of the switch it is on is looked up among the switch rows
      `tors` (a missing switch is NotFound) and the calls that remove it go
      to that type's driver, up to the first failure; what is logged and
      how the loop ends. */
  function PeerTeardown(tors: seq<Tor>, d: map<string, Driver>, log: seq<Issued>, ts: seq<Tunnel>): (seq<Issued>, Outcome)
    decreases |ts|
  {
    if |ts| == 0 then ([], Success)
    else
      var first := PeerTeardown(tors, d, log, ts[..|ts| - 1]);
      if first.1.Failure? then first
      else
        var last := PeerOne(tors, d, log + first.0, ts[|ts| - 1]);
        (first.0 + last.0, last.1)
  }

  /** Lines 294-300 for one tunnel `x`. */
  function PeerOne(tors: seq<Tor>, d: map<string, Driver>, log: seq<Issued>, x: Tunnel): (seq<Issued>, Outcome)
  {
    match TorByIp(tors, x.torIp)
    case Err(f) => ([], Failure(Caught(f)))
    case Ok(tor) =>
      var run := Run(d, log, tor.switchType, TeardownCalls(x.torIp, x.tunnelId));
      (run.0, Raised(run.1))
  }

  lemma PeerTeardownStep(tors: seq<Tor>, d: map<string, Driver>, log: seq<Issued>, ts: seq<Tunnel>, i: nat)
    requires i < |ts|
    ensures var first := PeerTeardown(tors, d, log, ts[..i]);
      PeerTeardown(tors, d, log, ts[..i + 1]) ==
        if first.1.Failure? then first
        else
          var last := PeerOne(tors, d, log + first.0, ts[i]);
          (first.0 + last.0, last.1)
  {
    assert ts[..i + 1][..i] == ts[..i];
  }

  /** A successful run over `ts[..i]` followed by the calls for `ts[i]`
      is the run over `ts[..i + 1]`. */
  lemma PeerTeardownNext(tors: seq<Tor>, d: map<string, Driver>, log0: seq<Issued>, ts: seq<Tunnel>, i: nat,
                         log: seq<Issued>, r: Outcome)
    requires i < |ts|
    requires var first := PeerTeardown(tors, d, log0, ts[..i]);
      && first.1 == Success
      && var one := PeerOne(tors, d, log0 + first.0, ts[i]);
         log == (log0 + first.0) + one.0 && r == one.1
    ensures var run := PeerTeardown(tors, d, log0, ts[..i + 1]);
      log == log0 + run.0 && r == run.1
  {
    PeerTeardownStep(tors, d, log0, ts, i);
    var first := PeerTeardown(tors, d, log0, ts[..i]);
    Appends(log0, first.0, PeerOne(tors, d, log0 + first.0, ts[i]).0, log);
  }

  lemma Appends(log0: seq<Issued>, a: seq<Issued>, b: seq<Issued>, log: seq<Issued>)
    requires log == (log0 + a) + b
    ensures log == log0 + (a + b)
  {
  }

  lemma {:induction false} PeerTeardownStops(tors: seq<Tor>, d: map<string, Driver>, log: seq<Issued>,
                                             ts: seq<Tunnel>, j: nat)
    requires j <= |ts| && PeerTeardown(tors, d, log, ts[..j]).1.Failure?
    ensures PeerTeardown(tors, d, log, ts) == PeerTeardown(tors, d, log, ts[..j])
    decreases |ts| - j
  {
    if j < |ts| {
      PeerTeardownStep(tors, d, log, ts, j);
      PeerTeardownStops(tors, d, log, ts, j + 1);
    } else {
      assert ts[..j] == ts;
    }
  }

  /** After dropping the pairs of the switch's own tunnels `t1` (all rows
      on `mgr`) and of the tunnels towards it `t2` (all rows towards
      `src`), no row on `mgr` or towards `src` is left. */
  lemma SwitchGone(tunnels0: seq<Tunnel>, tunnels: seq<Tunnel>, mgr: string, src: string,
                   t1: seq<Tunnel>, t2: seq<Tunnel>)
    requires forall x :: x in t1 <==> x in tunnels0 && x.torIp == mgr
    requires forall x :: x in t2 <==> x in tunnels0 && x.dstAddr == src
    requires TunnelsDropped(tunnels0, tunnels, Pairs(Retarget(t1, mgr)) + Pairs(t2))
    ensures forall x :: x in tunnels ==> x.torIp != mgr && x.dstAddr != src
  {
    PairsOf(Retarget(t1, mgr));
    PairsOf(t2);
    forall x | x in t1
      ensures (x.torIp, x.tunnelId) in Pairs(Retarget(t1, mgr))
    {
      var k :| 0 <= k < |t1| && t1[k] == x;
      assert Retarget(t1, mgr)[k] == x;
    }
  }

  // ---- create_tor ----

  /** How far a run of switch calls got: what it logged, the tunnel rows
      it saved, and how it ended. */
  datatype Sweep = Sweep(sent: seq<Issued>, saved: seq<Tunnel>, out: Outcome)

  /** `b` run after `a`, from where `a` left the log. */
  function Then(a: Sweep, b: Sweep): (c: Sweep)
    ensures |c.sent| == |a.sent| + |b.sent| && |c.saved| == |a.saved| + |b.saved|
  {
    Sweep(a.sent + b.sent, a.saved + b.saved, b.out)
  }

  /** Logging the calls of `a` and then those of `b` from `log0`, and
      saving their rows after `tunnels0`, is doing so for `Then(a, b)`. */
  lemma ThenAppends(log0: seq<Issued>, a: Sweep, b: Sweep, log: seq<Issued>, tunnels0: seq<Tunnel>, tunnels: seq<Tunnel>)
    requires log == (log0 + a.sent) + b.sent && tunnels == (tunnels0 + a.saved) + b.saved
    ensures log == log0 + Then(a, b).sent && tunnels == tunnels0 + Then(a, b).saved
  {
  }

  /** `status, tunnel_id = self.switch_drivers[t].newtunnel(from, to)` and
      its guard: on success, the row of the new tunnel on switch `mgr`
      (it is saved by the caller). */
  function NewOne(d: map<string, Driver>, log: seq<Issued>, t: string, mgr: string, from: string, to: string)
    : (s: Sweep)
    ensures s.out.Success? <==> |s.saved| == 1
    ensures s.saved != [] ==> s.saved[0].torIp == mgr && s.saved[0].dstAddr == to
    ensures s.out.Failure? ==> s.out.error == TorConfigError || s.out.error.Unhandled?
  {
    if t !in d then Sweep([], [], Failure(Unhandled(KeyError)))
    else
      var reply := d[t](log, NewTunnel(from, to));
      var sent := [Issued(t, NewTunnel(from, to))];
      if reply.Raise? then Sweep(sent, [], Failure(Unhandled(reply.fault)))
      else if !reply.status then Sweep(sent, [], Failure(TorConfigError))
      else Sweep(sent, [Tunnel(mgr, to, reply.tunnelId)], Success)
  }

  /** Lines 319-330: a tunnel from the new switch `mgr` (driver type `t`,
      tunnel source `src`) to each peer address but its own, in turn, up to
      the first failure. */
  function Forward(d: map<string, Driver>, log: seq<Issued>, t: string, mgr: string, src: string, peers: seq<string>)
    : Sweep
    decreases |peers|
  {
    if |peers| == 0 then Sweep([], [], Success)
    else
      var first := Forward(d, log, t, mgr, src, peers[..|peers| - 1]);
      var ip := peers[|peers| - 1];
      if first.out.Failure? || ip == src then first
      else Then(first, NewOne(d, log + first.sent, t, mgr, src, ip))
  }

  lemma ForwardStep(d: map<string, Driver>, log: seq<Issued>, t: string, mgr: string, src: string,
                    peers: seq<string>, i: nat)
    requires i < |peers|
    ensures var first := Forward(d, log, t, mgr, src, peers[..i]);
      Forward(d, log, t, mgr, src, peers[..i + 1]) ==
        if first.out.Failure? || peers[i] == src then first
        else Then(first, NewOne(d, log + first.sent, t, mgr, src, peers[i]))
  {
    assert peers[..i + 1][..i] == peers[..i];
  }

  /** Once the forward loop has failed, the later peers change nothing. */
  lemma {:induction false} ForwardStops(d: map<string, Driver>, log: seq<Issued>, t: string, mgr: string,
                                        src: string, peers: seq<string>, j: nat)
    requires j <= |peers| && Forward(d, log, t, mgr, src, peers[..j]).out.Failure?
    ensures Forward(d, log, t, mgr, src, peers) == Forward(d, log, t, mgr, src, peers[..j])
    decreases |peers| - j
  {
    if j < |peers| {
      ForwardStep(d, log, t, mgr, src, peers, j);
      ForwardStops(d, log, t, mgr, src, peers, j + 1);
    } else {
      assert peers[..j] == peers;
    }
  }

  /** A successful forward loop over `peers[..i]` followed by the new
      tunnel to `peers[i]` is the loop over `peers[..i + 1]`: what it
      logged from `log0`, the rows it added to `tunnels0`, the ids it
      gathered. */
  lemma ForwardNext(d: map<string, Driver>, log0: seq<Issued>, t: string, mgr: string, src: string,
                    peers: seq<string>, i: nat, log: seq<Issued>, tunnels0: seq<Tunnel>, tunnels: seq<Tunnel>,
                    ids: seq<int>, r: Outcome)
    requires i < |peers| && peers[i] != src
    requires var f := Forward(d, log0, t, mgr, src, peers[..i]);
      && f.out == Success
      && var one := NewOne(d, log0 + f.sent, t, mgr, src, peers[i]);
         && log == (log0 + f.sent) + one.sent && tunnels == (tunnels0 + f.saved) + one.saved && r == one.out
         && ids == TunnelIds(f.saved) + TunnelIds(one.saved)
    ensures var f := Forward(d, log0, t, mgr, src, peers[..i + 1]);
      log == log0 + f.sent && tunnels == tunnels0 + f.saved && r == f.out && ids == TunnelIds(f.saved)
  {
    ForwardStep(d, log0, t, mgr, src, peers, i);
    var f := Forward(d, log0, t, mgr, src, peers[..i]);
    var one := NewOne(d, log0 + f.sent, t, mgr, src, peers[i]);
    assert TunnelIds(f.saved + one.saved) == TunnelIds(f.saved) + TunnelIds(one.saved);
  }

  /** Every row the forward loop saves is on `mgr` towards a peer other
      than `src`; when it succeeds, every such peer has one. */
  lemma {:induction false} ForwardMesh(d: map<string, Driver>, log: seq<Issued>, t: string, mgr: string,
                                       src: string, peers: seq<string>)
    ensures var f := Forward(d, log, t, mgr, src, peers);
      && (forall x :: x in f.saved ==> x.torIp == mgr && x.dstAddr in peers && x.dstAddr != src)
      && (f.out.Success? ==> forall ip :: ip in peers && ip != src ==>
            exists x :: x in f.saved && x.torIp == mgr && x.dstAddr == ip)
    decreases |peers|
  {
    if |peers| > 0 {
      var init := peers[..|peers| - 1];
      ForwardMesh(d, log, t, mgr, src, init);
      assert peers == init + [peers[|peers| - 1]];
    }
  }

  /** Lines 344-352: a tunnel from `from` towards `to` made on switch
      `mgr` through the driver of `t`, then bound to the VXLANs `vxlans`;
      its row once both were answered true. */
  function Bound(d: map<string, Driver>, log: seq<Issued>, t: string, mgr: string, from: string, to: string,
                 vxlans: seq<int>): (s: Sweep)
    ensures s.out.Success? ==> |s.saved| == 1 && s.saved[0].torIp == mgr && s.saved[0].dstAddr == to
    ensures |s.saved| <= 1
  {
    var made := NewOne(d, log, t, mgr, from, to);
    if made.out.Failure? then made
    else
      var ensure := Run(d, log + made.sent, t, [EnsureVxlanWithTunnel(vxlans, [made.saved[0].tunnelId])]);
      Sweep(made.sent + ensure.0, if ensure.1 == Completed then made.saved else [], Raised(ensure.1))
  }

  /** Lines 341-352 for the switch row `tor`, whose type was looked up
      again as `t` and whose VXLANs are `vxlans`: `initialize` through the
      type of `tor`, then the bound tunnel towards `src`. */
  function Rejoin(d: map<string, Driver>, log: seq<Issued>, tor: Tor, t: string, vxlans: seq<int>, src: string)
    : (s: Sweep)
    ensures s.out.Success? ==> |s.saved| == 1 && s.saved[0].torIp == tor.torIp && s.saved[0].dstAddr == src
    ensures |s.saved| <= 1
  {
    var init := Run(d, log, tor.switchType, [Initialize(tor.torIp, User, Passwd)]);
    if init.1 != Completed then Sweep(init.0, [], Raised(init.1))
    else Then(Sweep(init.0, [], Success), Bound(d, log + init.0, t, tor.torIp, tor.tunnelSrcIp, src, vxlans))
  }

  /** Lines 337-352 for the switch row `tor` that existed before: its
      VXLANs among `vsis`, its driver type looked up again among the rows
      `tors` (any fault escapes), then the calls of `Rejoin`. */
  function Reverse(tors: seq<Tor>, vsis: seq<Vsi>, d: map<string, Driver>, log: seq<Issued>, src: string, tor: Tor)
    : (s: Sweep)
    ensures s.out.Success? ==> |s.saved| == 1 && s.saved[0].torIp == tor.torIp && s.saved[0].dstAddr == src
    ensures |s.saved| <= 1
  {
    match TorByIp(tors, tor.torIp)
    case Err(f) => Sweep([], [], Failure(Unhandled(f)))
    case Ok(found) => Rejoin(d, log, tor, found.switchType, Vxlans(VsisOn(vsis, tor.torIp)), src)
  }

  /** Lines 335-352: the switches that existed before, in the order the
      loop visits them, up to the first failure. */
  function Backward(tors: seq<Tor>, vsis: seq<Vsi>, d: map<string, Driver>, log: seq<Issued>, src: string,
                    order: seq<Tor>): Sweep
    decreases |order|
  {
    if |order| == 0 then Sweep([], [], Success)
    else
      var first := Backward(tors, vsis, d, log, src, order[..|order| - 1]);
      if first.out.Failure? then first
      else Then(first, Reverse(tors, vsis, d, log + first.sent, src, order[|order| - 1]))
  }

  lemma BackwardStep(tors: seq<Tor>, vsis: seq<Vsi>, d: map<string, Driver>, log: seq<Issued>, src: string,
                     order: seq<Tor>, i: nat)
    requires i < |order|
    ensures var first := Backward(tors, vsis, d, log, src, order[..i]);
      Backward(tors, vsis, d, log, src, order[..i + 1]) ==
        if first.out.Failure? then first
        else Then(first, Reverse(tors, vsis, d, log + first.sent, src, order[i]))
  {
    assert order[..i + 1][..i] == order[..i];
  }

  /** Once the reverse loop has failed, the later switches change nothing. */
  lemma {:induction false} BackwardStops(tors: seq<Tor>, vsis: seq<Vsi>, d: map<string, Driver>, log: seq<Issued>,
                                         src: string, order: seq<Tor>, j: nat)
    requires j <= |order| && Backward(tors, vsis, d, log, src, order[..j]).out.Failure?
    ensures Backward(tors, vsis, d, log, src, order) == Backward(tors, vsis, d, log, src, order[..j])
    decreases |order| - j
  {
    if j < |order| {
      BackwardStep(tors, vsis, d, log, src, order, j);
      BackwardStops(tors, vsis, d, log, src, order, j + 1);
    } else {
      assert order[..j] == order;
    }
  }

  /** A successful reverse loop over `order` followed by the switch `tor`
      is the loop over `order + [tor]`. */
  lemma BackwardNext(tors: seq<Tor>, vsis: seq<Vsi>, d: map<string, Driver>, log0: seq<Issued>, src: string,
                     order: seq<Tor>, tor: Tor, log: seq<Issued>, tunnels0: seq<Tunnel>, tunnels: seq<Tunnel>,
                     r: Outcome)
    requires var b := Backward(tors, vsis, d, log0, src, order);
      && b.out == Success
      && var one := Reverse(tors, vsis, d, log0 + b.sent, src, tor);
         log == (log0 + b.sent) + one.sent && tunnels == (tunnels0 + b.saved) + one.saved && r == one.out
    ensures var b := Backward(tors, vsis, d, log0, src, order + [tor]);
      log == log0 + b.sent && tunnels == tunnels0 + b.saved && r == b.out
  {
    BackwardLast(tors, vsis, d, log0, src, order, tor);
    var b := Backward(tors, vsis, d, log0, src, order);
    ThenAppends(log0, b, Reverse(tors, vsis, d, log0 + b.sent, src, tor), log, tunnels0, tunnels);
  }

  /** The reverse loop over `order + [tor]`, once it got through `order`. */
  lemma BackwardLast(tors: seq<Tor>, vsis: seq<Vsi>, d: map<string, Driver>, log0: seq<Issued>, src: string,
                     order: seq<Tor>, tor: Tor)
    ensures var b := Backward(tors, vsis, d, log0, src, order);
      b.out.Success? ==>
        Backward(tors, vsis, d, log0, src, order + [tor]) == Then(b, Reverse(tors, vsis, d, log0 + b.sent, src, tor))
  {
    var o := order + [tor];
    assert o[..|o| - 1] == order;
  }

  /** Every row the reverse loop saves points at `src` from a switch it
      visited. */
  lemma {:induction false} BackwardRows(tors: seq<Tor>, vsis: seq<Vsi>, d: map<string, Driver>, log: seq<Issued>,
                                        src: string, order: seq<Tor>)
    ensures forall x :: x in Backward(tors, vsis, d, log, src, order).saved ==>
      x.dstAddr == src && exists y :: y in order && y.torIp == x.torIp
    decreases |order|
  {
    if |order| > 0 {
      var init, y := order[..|order| - 1], order[|order| - 1];
      BackwardRows(tors, vsis, d, log, src, init);
      assert order == init + [y];
      var first := Backward(tors, vsis, d, log, src, init);
      if first.out.Success? {
        var last := Reverse(tors, vsis, d, log + first.sent, src, y);
        assert Backward(tors, vsis, d, log, src, order).saved == first.saved + last.saved;
        forall x | x in first.saved + last.saved
          ensures x.dstAddr == src && exists z :: z in order && z.torIp == x.torIp
        {
          if x in first.saved {
            var z :| z in init && z.torIp == x.torIp;
            assert z in order;
          } else {
            assert x == last.saved[0];
          }
        }
      }
    }
  }

  /** When the reverse loop succeeds, every switch it visited has a row
      towards `src`. */
  lemma {:induction false} BackwardCovers(tors: seq<Tor>, vsis: seq<Vsi>, d: map<string, Driver>, log: seq<Issued>,
                                          src: string, order: seq<Tor>)
    ensures var b := Backward(tors, vsis, d, log, src, order);
      b.out.Success? ==> forall y :: y in order ==> exists x :: x in b.saved && x.torIp == y.torIp && x.dstAddr == src
    decreases |order|
  {
    if |order| > 0 {
      var init, y := order[..|order| - 1], order[|order| - 1];
      BackwardCovers(tors, vsis, d, log, src, init);
      assert order == init + [y];
      var first := Backward(tors, vsis, d, log, src, init);
      if first.out.Success? {
        var last := Reverse(tors, vsis, d, log + first.sent, src, y);
        var b := Then(first, last);
        assert Backward(tors, vsis, d, log, src, order) == b;
        if last.out.Success? {
          forall z | z in order
            ensures exists x :: x in b.saved && x.torIp == z.torIp && x.dstAddr == src
          {
            if z in init {
              var x :| x in first.saved && x.torIp == z.torIp && x.dstAddr == src;
              assert x in b.saved;
            } else {
              assert last.saved[0] in b.saved;
            }
          }
        }
      }
    }
  }

  /** `order` lists switches of `existing` (keyed by management address),
      each at most once: the start of a visiting order of the dictionary. */
  ghost predicate Visits(order: seq<Tor>, existing: map<string, Tor>)
  {
    && (forall j :: 0 <= j < |order| ==> order[j].torIp in existing && existing[order[j].torIp] == order[j])
    && (forall j, k :: 0 <= j < k < |order| ==> order[j].torIp != order[k].torIp)
  }

  /** `order` lists every switch of `existing` once: a visiting order of
      the dictionary. */
  ghost predicate Enumerates(order: seq<Tor>, existing: map<string, Tor>)
  {
    && Visits(order, existing)
    && (forall ip :: ip in existing ==> exists j :: 0 <= j < |order| && order[j].torIp == ip)
  }

  /** Partway through visiting `existing`: `order` lists the switches
      visited, `left` the addresses still to visit. */
  ghost predicate Visiting(order: seq<Tor>, existing: map<string, Tor>, left: set<string>)
  {
    && left <= existing.Keys
    && Visits(order, existing)
    && (forall j :: 0 <= j < |order| ==> order[j].torIp !in left)
    && (forall ip :: ip in existing && ip !in left ==> exists j :: 0 <= j < |order| && order[j].torIp == ip)
  }

  /** Visiting one more address of `left` keeps the bookkeeping; with
      nothing left, `order` is a visiting order of the whole dictionary. */
  lemma VisitingNext(order: seq<Tor>, existing: map<string, Tor>, left: set<string>, ip: string)
    requires forall k :: k in existing ==> existing[k].torIp == k
    requires Visiting(order, existing, left) && ip in left
    ensures Visiting(order + [existing[ip]], existing, left - {ip})
    ensures left - {ip} == {} ==> Enumerates(order + [existing[ip]], existing)
  {
    var o := order + [existing[ip]];
    forall k | k in existing && k !in left - {ip}
      ensures exists j :: 0 <= j < |o| && o[j].torIp == k
    {
      if k == ip {
        assert o[|order|].torIp == k;
      } else {
        var j :| 0 <= j < |order| && order[j].torIp == k;
        assert o[j].torIp == k;
      }
    }
  }

  /** Lines 313-333, for a switch of type `t` with tunnel source `src`
      and management address `mgr`, the peer addresses `peers` and the VSI
      rows `vsis`: `initialize`, the forward tunnels, and their binding to
      the switch's VXLANs. */
  function Provisioned(vsis: seq<Vsi>, d: map<string, Driver>, log: seq<Issued>,
                       t: string, src: string, mgr: string, peers: seq<string>): Sweep
  {
    var init := Run(d, log, t, [Initialize(mgr, User, Passwd)]);
    if init.1 != Completed then Sweep(init.0, [], Raised(init.1))
    else
      var fwd := Then(Sweep(init.0, [], Success), Forward(d, log + init.0, t, mgr, src, peers));
      if fwd.out.Failure? then fwd
      else
        var ensure := Run(d, log + fwd.sent, t, [EnsureVxlanWithTunnel(Vxlans(VsisOn(vsis, mgr)), TunnelIds(fwd.saved))]);
        Sweep(fwd.sent + ensure.0, fwd.saved, Raised(ensure.1))
  }

  /** Lines 305-352 as a whole, with the switch rows `tors0` and the
      visiting order `order` of the switches that existed before: what is
      logged, which tunnel rows are saved, how it ends, and whether the
      switch's row was saved. */
  function Creation(tors0: seq<Tor>, vsis: seq<Vsi>, d: map<string, Driver>, log: seq<Issued>,
                    t: string, src: string, mgr: string, peers: seq<string>, order: seq<Tor>): (Sweep, bool)
  {
    var p := Provisioned(vsis, d, log, t, src, mgr, peers);
    if p.out.Failure? then (p, false)
    else if Tor(mgr, src, t) in tors0 then (p.(out := Failure(Unhandled(DuplicateEntry))), false)
    else (Then(p, Backward(tors0 + [Tor(mgr, src, t)], vsis, d, log + p.sent, src, order)), true)
  }

  /** The rows `create_tor` saves form the new switch's part of the mesh:
      each is a tunnel from `mgr` to a peer other than `src`, or a tunnel
      towards `src` from a switch that existed before. The switch's row is
      only added when it was not stored yet. */
  lemma CreationRows(tors0: seq<Tor>, vsis: seq<Vsi>, d: map<string, Driver>, log: seq<Issued>,
                     t: string, src: string, mgr: string, peers: seq<string>, order: seq<Tor>)
    ensures var (c, added) := Creation(tors0, vsis, d, log, t, src, mgr, peers, order);
      && (c.out.Success? ==> added)
      && (added ==> Tor(mgr, src, t) !in tors0)
      && forall x :: x in c.saved ==>
           || (x.torIp == mgr && x.dstAddr in peers && x.dstAddr != src)
           || (x.dstAddr == src && exists y :: y in order && y.torIp == x.torIp)
  {
    var init := Run(d, log, t, [Initialize(mgr, User, Passwd)]);
    if init.1 == Completed {
      var f := Forward(d, log + init.0, t, mgr, src, peers);
      ForwardMesh(d, log + init.0, t, mgr, src, peers);
      var fwd := Then(Sweep(init.0, [], Success), f);
      if fwd.out.Success? {
        var bound := Provisioned(vsis, d, log, t, src, mgr, peers);
        BackwardRows(tors0 + [Tor(mgr, src, t)], vsis, d, log + bound.sent, src, order);
      }
    }
  }

  /** When `create_tor` succeeds, the new switch has a tunnel to every
      peer but itself, and every switch that existed before has one
      towards the new switch's source. */
  lemma CreationCovers(tors0: seq<Tor>, vsis: seq<Vsi>, d: map<string, Driver>, log: seq<Issued>,
                       t: string, src: string, mgr: string, peers: seq<string>, order: seq<Tor>)
    ensures var (c, added) := Creation(tors0, vsis, d, log, t, src, mgr, peers, order);
      c.out.Success? ==>
        && (forall ip :: ip in peers && ip != src ==> exists x :: x in c.saved && x.torIp == mgr && x.dstAddr == ip)
        && (forall y :: y in order ==> exists x :: x in c.saved && x.torIp == y.torIp && x.dstAddr == src)
  {
    var init := Run(d, log, t, [Initialize(mgr, User, Passwd)]);
    if init.1 == Completed {
      var f := Forward(d, log + init.0, t, mgr, src, peers);
      ForwardMesh(d, log + init.0, t, mgr, src, peers);
      var fwd := Then(Sweep(init.0, [], Success), f);
      if fwd.out.Success? {
        var bound := Provisioned(vsis, d, log, t, src, mgr, peers);
        var back := Backward(tors0 + [Tor(mgr, src, t)], vsis, d, log + bound.sent, src, order);
        BackwardCovers(tors0 + [Tor(mgr, src, t)], vsis, d, log + bound.sent, src, order);
        if bound.out.Success? && Tor(mgr, src, t) !in tors0 && back.out.Success? {
          var c := Then(bound, back);
          forall ip | ip in peers && ip != src
            ensures exists x :: x in c.saved && x.torIp == mgr && x.dstAddr == ip
          {
            var x :| x in f.saved && x.torIp == mgr && x.dstAddr == ip;
            assert x in c.saved;
          }
          forall y | y in order
            ensures exists x :: x in c.saved && x.torIp == y.torIp && x.dstAddr == src
          {
            var x :| x in back.saved && x.torIp == y.torIp && x.dstAddr == src;
            assert x in c.saved;
          }
        }
      }
    }
  }

  /** Over a visiting order of the switches that existed before, success
      leaves every one of them with a tunnel towards the new switch. */
  lemma CreationReachesAll(tors0: seq<Tor>, vsis: seq<Vsi>, d: map<string, Driver>, log: seq<Issued>,
                           t: string, src: string, mgr: string, peers: seq<string>, order: seq<Tor>,
                           existing: map<string, Tor>)
    requires Enumerates(order, existing)
    ensures var (c, added) := Creation(tors0, vsis, d, log, t, src, mgr, peers, order);
      c.out.Success? ==> forall ip :: ip in existing ==> exists x :: x in c.saved && x.torIp == ip && x.dstAddr == src
  {
    CreationCovers(tors0, vsis, d, log, t, src, mgr, peers, order);
    forall ip | ip in existing
      ensures exists j :: 0 <= j < |order| && order[j].torIp == ip
    {
    }
    forall ip | ip in existing
      ensures exists y :: y in order && y.torIp == ip
    {
      var j :| 0 <= j < |order| && order[j].torIp == ip;
      assert order[j] in order;
    }
  }
}
