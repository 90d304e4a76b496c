/** How a workflow of `Sapi` (sapi.py) ends, as the service answers it:
    success, one of the exceptions of exceptions.py, or a Python fault the
    workflow lets escape; and the small projections the workflows share. */
module Outcomes {
  import opened Faults
  import opened LvTables
  import opened Drivers

  /** The exceptions of exceptions.py a workflow raises, and the Python
      faults it lets escape unchanged. */
  datatype SapiError =
    | NotFound
    | BadRequest
    | TorConfigError
    | NoAvaVlan
    | Unhandled(fault: Fault)

  datatype Outcome = Success | Failure(error: SapiError)

  /** The credentials every `initialize` call passes. */
  const User: string := "sinanp"
  const Passwd: string := "sinanp"

  /** How a run of guarded driver calls ends the workflow: a refusal is
      `SapiTorConfigError`, an unregistered switch type the registry's
      KeyError, and a driver's own exception escapes uncaught. */
  function Raised(stop: Stop): (o: Outcome)
    ensures o.Success? <==> stop == Completed
    ensures stop == Refused ==> o == Failure(TorConfigError)
    ensures stop.Faulted? ==> o == Failure(Unhandled(stop.fault))
    ensures stop == NoDriver ==> o == Failure(Unhandled(KeyError))
  {
    match stop
    case Completed => Success
    case Refused => Failure(TorConfigError)
    case Faulted(f) => Failure(Unhandled(f))
    case NoDriver => Failure(Unhandled(KeyError))
  }

  /** A lookup fault under `except exc.NoResultFound: raise SapiNotFound`. */
  function Caught(f: Fault): (e: SapiError)
    ensures e == NotFound <==> f == NoResultFound
    ensures e != NotFound ==> e == Unhandled(f)
  {
    if f == NoResultFound then NotFound else Unhandled(f)
  }

  /** `[t["tunnel_id"] for t in tunnels]`. */
  function TunnelIds(ts: seq<Tunnel>): (ids: seq<int>)
    ensures |ids| == |ts| && forall k :: 0 <= k < |ts| ==> ids[k] == ts[k].tunnelId
  {
    seq(|ts|, k requires 0 <= k < |ts| => ts[k].tunnelId)
  }

  /** `[v["vxlan"] for v in vsis]`. */
  function Vxlans(vs: seq<Vsi>): (xs: seq<int>)
    ensures |xs| == |vs| && forall k :: 0 <= k < |vs| ==> xs[k] == vs[k].vxlan
  {
    seq(|vs|, k requires 0 <= k < |vs| => vs[k].vxlan)
  }
}
