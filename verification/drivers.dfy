/** The switch drivers as the workflows of `sapi.py` see them: the calls of
    `SwitchDriverBase`, a registry from switch type to driver
    (`DriverManager`), and a log of every call made. What a driver answers
    is a function of everything it was asked before and the new call, so
    a workflow's effect on the switches is exactly the log it leaves. */
module Drivers {
  import opened Faults
  import opened Text

  /** The calls of the driver interface, with their arguments. */
  datatype Call =
    | Initialize(mgr: string, user: string, passwd: string)
    | NewTunnel(src: string, dst: string)
    | DeleteTunnel(tunnelId: int)
    | NewVlan2Vxlan(index: Option<int>, vlan: int, vxlan: int)
    | DeleteVlan2Vxlan(index: Option<int>, vlan: int, vxlan: int, onlyIndex: bool)
    | EnsureVxlanWithTunnel(vxlans: seq<int>, tunnelIds: seq<int>)

  /** A call made to the driver registered for `switchType`. */
  datatype Issued = Issued(switchType: string, call: Call)

  /** A driver's answer: its status and, for `newtunnel`, the tunnel id;
      or the exception the call raised (`newtunnel` of the H3C driver
      raises ValueError on a malformed tunnel id). */
  datatype Reply = Answer(status: bool, tunnelId: int) | Raise(fault: Fault)

  /** The reply passes the workflows' `if not ...` guard. */
  predicate Accepted(r: Reply)
  {
    r.Answer? && r.status
  }

  /** A driver: its answer given all calls made so far and the new one. */
  type Driver = (seq<Issued>, Call) -> Reply

  /** How a run of calls ends: all answered true, one answered false, one
      raised `fault`, or the switch type has no driver (the registry's
      KeyError). */
  datatype Stop = Completed | Refused | Faulted(fault: Fault) | NoDriver

  /** The calls a workflow makes in turn to the driver of `t`, each
      guarded by `if not ...: raise`: what is logged and how it ends. */
  function Run(drivers: map<string, Driver>, log: seq<Issued>, t: string, calls: seq<Call>): (seq<Issued>, Stop)
    decreases |calls|
  {
    if t !in drivers then ([], NoDriver)
    else if |calls| == 0 then ([], Completed)
    else
      var first := Issued(t, calls[0]);
      var reply := drivers[t](log, calls[0]);
      if reply.Raise? then ([first], Faulted(reply.fault))
      else if !reply.status then ([first], Refused)
      else
        var rest := Run(drivers, log + [first], t, calls[1..]);
        ([first] + rest.0, rest.1)
  }

  /** A run logs a prefix of its calls: all of them when it completes,
      none when there is no driver, at least one when it is refused. */
  lemma {:induction false} RunPrefix(drivers: map<string, Driver>, log: seq<Issued>, t: string, calls: seq<Call>)
    ensures var (sent, stop) := Run(drivers, log, t, calls);
      && |sent| <= |calls|
      && (forall k :: 0 <= k < |sent| ==> sent[k] == Issued(t, calls[k]))
      && (stop == NoDriver <==> t !in drivers)
      && (stop == NoDriver ==> sent == [])
      && (stop == Completed ==> |sent| == |calls|)
      && (stop == Refused || stop.Faulted? ==> 0 < |sent|)
    decreases |calls|
  {
    if t in drivers && |calls| > 0 && Accepted(drivers[t](log, calls[0])) {
      RunPrefix(drivers, log + [Issued(t, calls[0])], t, calls[1..]);
    }
  }

  /** Each call a run logs was answered true, given the log before it,
      except the last one of a refused run, which was answered false, and
      the last one of a faulted run, which raised the fault. */
  lemma {:induction false} RunAnswers(drivers: map<string, Driver>, log: seq<Issued>, t: string, calls: seq<Call>)
    ensures var (sent, stop) := Run(drivers, log, t, calls);
      && (forall k :: 0 <= k < |sent| && k < |calls| && t in drivers && (stop == Completed || k < |sent| - 1) ==>
            Accepted(drivers[t](log + sent[..k], calls[k])))
      && (stop == Refused ==>
            (t in drivers && 0 < |sent| <= |calls| &&
             drivers[t](log + sent[..|sent| - 1], calls[|sent| - 1]).Answer? &&
             !drivers[t](log + sent[..|sent| - 1], calls[|sent| - 1]).status))
      && (stop.Faulted? ==>
            (t in drivers && 0 < |sent| <= |calls| &&
             drivers[t](log + sent[..|sent| - 1], calls[|sent| - 1]) == Raise(stop.fault)))
    decreases |calls|
  {
    var (sent, stop) := Run(drivers, log, t, calls);
    if t in drivers && |calls| > 0 && Accepted(drivers[t](log, calls[0])) {
      var first := Issued(t, calls[0]);
      var rest := Run(drivers, log + [first], t, calls[1..]);
      RunAnswers(drivers, log + [first], t, calls[1..]);
      RunPrefix(drivers, log + [first], t, calls[1..]);
      assert sent == [first] + rest.0 && stop == rest.1;
      forall k | 0 <= k < |sent| && k < |calls| && (stop == Completed || k < |sent| - 1)
        ensures Accepted(drivers[t](log + sent[..k], calls[k]))
      {
        Shift(log, first, rest.0, k);
        if k > 0 {
          assert calls[k] == calls[1..][k - 1];
        }
      }
      if stop == Refused || stop.Faulted? {
        Shift(log, first, rest.0, |sent| - 1);
        assert calls[|sent| - 1] == calls[1..][|sent| - 2];
      }
    } else if t in drivers && |calls| > 0 {
      assert log + sent[..0] == log;
    }
  }

  /** Two runs in a row are one run over both lists: the second starts
      only when the first completes, from the log the first left. */
  lemma {:induction false} RunAppend(drivers: map<string, Driver>, log: seq<Issued>, t: string, a: seq<Call>, b: seq<Call>)
    ensures var first := Run(drivers, log, t, a);
      Run(drivers, log, t, a + b) ==
        if first.1 == Completed then
          var second := Run(drivers, log + first.0, t, b);
          (first.0 + second.0, second.1)
        else first
    decreases |a|
  {
    if t in drivers && |a| > 0 {
      assert (a + b)[0] == a[0] && (a + b)[1..] == a[1..] + b;
      if Accepted(drivers[t](log, a[0])) {
        var head := Issued(t, a[0]);
        RunAppend(drivers, log + [head], t, a[1..], b);
        var rest := Run(drivers, log + [head], t, a[1..]);
        if rest.1 == Completed {
          assert (log + [head]) + rest.0 == log + ([head] + rest.0);
          var second := Run(drivers, log + ([head] + rest.0), t, b);
          assert [head] + (rest.0 + second.0) == ([head] + rest.0) + second.0;
        }
      }
    } else if t in drivers {
      assert a + b == b;
      var second := Run(drivers, log, t, b);
      assert log + [] == log && [] + second.0 == second.0;
    }
  }

  /** The log before the `k`-th call of `[first] + rest`. */
  lemma Shift(log: seq<Issued>, first: Issued, rest: seq<Issued>, k: nat)
    requires k <= |rest|
    ensures k == 0 ==> log + ([first] + rest)[..k] == log
    ensures k > 0 ==> log + ([first] + rest)[..k] == (log + [first]) + rest[..k - 1]
  {
    if k > 0 {
      assert ([first] + rest)[..k] == [first] + rest[..k - 1];
    }
  }

  /** `DriverManager`: the registry of drivers by switch type, with the
      log of every call made through it. */
  class DriverManager {
    var drivers: map<string, Driver>
    var log: seq<Issued>

    constructor()
      ensures drivers == map[] && log == []
    {
      drivers := map[];
      log := [];
    }

    /** `__setitem__`: register (or replace) the driver of a switch type. */
    method SetItem(t: string, d: Driver)
      modifies this`drivers
      ensures drivers == old(drivers)[t := d]
    {
      drivers := drivers[t := d];
    }

    /** `self.switch_drivers[t].<call>(...)`: the lookup raises KeyError
        for an unregistered type and nothing is called; otherwise the call
        is logged and the driver's answer returned. */
    method Invoke(t: string, c: Call) returns (r: Result<Reply>)
      modifies this`log
      ensures t !in drivers ==> r == Err(KeyError) && log == old(log)
      ensures t in drivers ==> r == Ok(drivers[t](old(log), c)) && log == old(log) + [Issued(t, c)]
    {
      if t !in drivers {
        return Err(KeyError);
      }
      r := Ok(drivers[t](log, c));
      log := log + [Issued(t, c)];
    }
  }
}
