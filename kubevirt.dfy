/** The status of a KubeVirt VirtualMachine (`get_virtualmachine_status`). */
module Kubevirt {
  import opened Common

  /** A member of `status.conditions`; `kind` is its `type`. */
  datatype Condition = Condition(kind: Option<string>, status: Option<string>)

  /** The `status` object of a VirtualMachine: a missing `conditions`
      member reads as no conditions. */
  datatype VmStatus = VmStatus(printableStatus: Option<string>, conditions: seq<Condition>)

  /** The fetched VirtualMachine (its `status` may be missing), or a failed
      fetch (an API, client or timeout error). */
  datatype VmFetch = Fetched(status: Option<VmStatus>) | FetchFailed

  predicate IsReady(c: Condition) {
    c.kind == Some("Ready") && c.status == Some("True")
  }

  /** The status the VirtualMachine reports: its printable status verbatim
      when present, else "Running" when a Ready condition is True, else
      "UNKNOWN"; a failed fetch fails. */
  function VirtualMachineStatus(fetch: VmFetch): Result<string> {
    match fetch
    case FetchFailed => Err(Raised("VelaKubernetesError", "Failed to query virtual machine status"))
    case Fetched(None) => Ok("UNKNOWN")
    case Fetched(Some(s)) =>
      if s.printableStatus.Some? then Ok(s.printableStatus.value)
      else if exists i :: 0 <= i < |s.conditions| && IsReady(s.conditions[i]) then Ok("Running")
      else Ok("UNKNOWN")
  }

  /** `get_virtualmachine_status` after the fetch: the loop over the
      conditions that stops at the first Ready one. */
  method GetVirtualMachineStatus(fetch: VmFetch) returns (r: Result<string>)
    ensures r == VirtualMachineStatus(fetch)
  {
    if fetch.FetchFailed? {
      return Err(Raised("VelaKubernetesError", "Failed to query virtual machine status"));
    }
    if fetch.status.Some? && fetch.status.value.printableStatus.Some? {
      return Ok(fetch.status.value.printableStatus.value);
    }
    var conditions := if fetch.status.Some? then fetch.status.value.conditions else [];
    var i := 0;
    while i < |conditions|
      invariant 0 <= i <= |conditions|
      invariant forall j :: 0 <= j < i ==> !IsReady(conditions[j])
    {
      if conditions[i].kind == Some("Ready") && conditions[i].status == Some("True") {
        return Ok("Running");
      }
      i := i + 1;
    }
    r := Ok("UNKNOWN");
  }

  /** The status never fails once fetched, and "Running" without a printable
      status means some condition is a True Ready condition, in either
      direction. */
  lemma VirtualMachineStatusMeaning(fetch: VmFetch)
    ensures VirtualMachineStatus(fetch).Err? <==> fetch.FetchFailed?
    ensures fetch.Fetched? && fetch.status.Some? && fetch.status.value.printableStatus.None? ==>
              (VirtualMachineStatus(fetch) == Ok("Running") <==> exists c :: c in fetch.status.value.conditions && IsReady(c)) &&
              (VirtualMachineStatus(fetch) == Ok("UNKNOWN") <==> forall c :: c in fetch.status.value.conditions ==> !IsReady(c))
    ensures fetch.Fetched? && fetch.status.Some? && fetch.status.value.printableStatus.Some? ==>
              VirtualMachineStatus(fetch) == Ok(fetch.status.value.printableStatus.value)
  {
  }
}
