/** The helpers of the Kubernetes service that pick the virt-launcher pod
    backing a KubeVirt VM and read the memory figures of the VM and of that
    pod. Kubernetes objects are records of the attributes the helpers read:
    an attribute that is missing or `None` is `None` here. */
module KubernetesPods {
  import opened Common
  import U = UtilPkg

  // --------------------------------------------------------- VM memory

  /** The members of a VirtualMachine object the memory lookup reads:
      `spec.template.spec.domain.memory.guest` and the `memory` members of
      `domain.resources.limits` and `domain.resources.requests`. A missing or
      null block on the way leaves every member below it absent. */
  datatype VmMemorySpec = VmMemorySpec(guest: Option<string>, limitsMemory: Option<string>, requestsMemory: Option<string>)

  /** One memory value: an absent or empty one is skipped; otherwise it is
      converted by `quantity_to_bytes`, whose parser may raise. */
  function QuantityBytes(value: Option<string>, parse: string -> Result<real>): (r: Result<Option<int>>)
    ensures value.None? || value.value == [] ==> r == Ok(None)
    ensures value.Some? && value.value != [] ==> r == U.QuantityToBytes(U.QuantityText(value.value), parse)
  {
    if value.None? || value.value == [] then Ok(None)
    else U.QuantityToBytes(U.QuantityText(value.value), parse)
  }

  /** `_extract_vm_memory_bytes`: the guest memory, else the memory limit,
      else the memory request, each taken only when it converts to bytes; a
      parser failure propagates. */
  function ExtractVmMemoryBytes(vm: VmMemorySpec, parse: string -> Result<real>): Result<Option<int>> {
    var guest := QuantityBytes(vm.guest, parse);
    if guest.Err? || guest.value.Some? then guest
    else
      var limits := QuantityBytes(vm.limitsMemory, parse);
      if limits.Err? || limits.value.Some? then limits
      else QuantityBytes(vm.requestsMemory, parse)
  }

  /** The guest memory takes precedence over the limit, and the limit over
      the request; the result is `None` exactly when none of the three gives
      bytes, and a value is always the bytes of one of them. */
  lemma ExtractVmMemoryBytesMeaning(vm: VmMemorySpec, parse: string -> Result<real>, b: int)
    ensures QuantityBytes(vm.guest, parse) == Ok(Some(b)) ==> ExtractVmMemoryBytes(vm, parse) == Ok(Some(b))
    ensures QuantityBytes(vm.guest, parse) == Ok(None) && QuantityBytes(vm.limitsMemory, parse) == Ok(Some(b)) ==>
              ExtractVmMemoryBytes(vm, parse) == Ok(Some(b))
    ensures ExtractVmMemoryBytes(vm, parse) == Ok(None) <==>
              QuantityBytes(vm.guest, parse) == Ok(None) && QuantityBytes(vm.limitsMemory, parse) == Ok(None) &&
              QuantityBytes(vm.requestsMemory, parse) == Ok(None)
    ensures ExtractVmMemoryBytes(vm, parse) == Ok(Some(b)) ==>
              QuantityBytes(vm.guest, parse) == Ok(Some(b)) || QuantityBytes(vm.limitsMemory, parse) == Ok(Some(b)) ||
              QuantityBytes(vm.requestsMemory, parse) == Ok(Some(b))
    ensures vm.guest.None? || vm.guest.value == [] ==>
              ExtractVmMemoryBytes(vm, parse) == ExtractVmMemoryBytes(vm.(guest := None), parse)
    ensures vm.limitsMemory.None? || vm.limitsMemory.value == [] ==>
              ExtractVmMemoryBytes(vm, parse) == ExtractVmMemoryBytes(vm.(limitsMemory := None), parse)
    ensures vm.guest.Some? && vm.guest.value != [] && U.QuantityToBytes(U.QuantityText(vm.guest.value), parse) == Ok(Some(b)) ==>
              ExtractVmMemoryBytes(vm, parse) == Ok(Some(b))
    ensures vm.guest.Some? && vm.guest.value != [] && U.QuantityToBytes(U.QuantityText(vm.guest.value), parse).Err? ==>
              ExtractVmMemoryBytes(vm, parse) == U.QuantityToBytes(U.QuantityText(vm.guest.value), parse)
  {
  }

  /** What fetching the VirtualMachine object gave. */
  datatype VmFetch = FetchedVm(vm: VmMemorySpec) | VmApiError(status: int) | VmClientError

  /** `get_vm_memory_bytes`: an API or client failure gives `None`; a
      fetched VM is read as above. */
  function VmMemoryBytes(fetch: VmFetch, parse: string -> Result<real>): (r: Result<Option<int>>)
    ensures !fetch.FetchedVm? ==> r == Ok(None)
    ensures r.Err? ==> fetch.FetchedVm?
    ensures r.Ok? && r.value.Some? ==>
              fetch.FetchedVm? &&
              (QuantityBytes(fetch.vm.guest, parse) == r || QuantityBytes(fetch.vm.limitsMemory, parse) == r ||
               QuantityBytes(fetch.vm.requestsMemory, parse) == r)
  {
    match fetch
    case FetchedVm(vm) => ExtractVmMemoryBytes(vm, parse)
    case VmApiError(_) => Ok(None)
    case VmClientError => Ok(None)
  }

  // -------------------------------------------------------------- pods

  datatype Metadata = Metadata(name: string, deletionTimestamp: Option<int>,
                               creationTimestamp: Option<int>, creationTimestampCamel: Option<int>)

  datatype ContainerStatus = ContainerStatus(name: Option<string>, ready: bool)

  datatype PodStatus = PodStatus(phase: Option<string>, containerStatuses: seq<ContainerStatus>,
                                 startTime: Option<int>, startTimeCamel: Option<int>)

  /** A container and the `requests` and `limits` of its resources (empty
      when the resources or either block are missing). */
  datatype Container = Container(name: Option<string>, requests: map<string, string>, limits: map<string, string>)

  datatype Pod = Pod(metadata: Option<Metadata>, status: Option<PodStatus>, containers: seq<Container>)

  /** A pod with metadata and no deletion timestamp. */
  predicate IsEligible(p: Pod) {
    p.metadata.Some? && p.metadata.value.deletionTimestamp.None?
  }

  /** `_eligible_vm_pods`: the pods not being deleted, in their order. */
  method EligibleVmPods(pods: seq<Pod>) returns (eligible: seq<Pod>)
    ensures eligible == Filter(pods, IsEligible)
    ensures forall p :: p in eligible <==> p in pods && IsEligible(p)
  {
    eligible := [];
    var i := 0;
    while i < |pods|
      invariant 0 <= i <= |pods|
      invariant eligible == Filter(pods[..i], IsEligible)
    {
      assert pods[..i + 1][..i] == pods[..i];
      if IsEligible(pods[i]) {
        eligible := eligible + [pods[i]];
      }
      i := i + 1;
    }
    assert pods[..|pods|] == pods;
    FilterMembershipAll(pods, IsEligible);
  }

  /** `_pod_phase`: the phase in upper case, "" when there is none. */
  function PodPhase(p: Pod): (r: string)
    ensures HasNoLower(r)
    ensures p.status.None? || p.status.value.phase.None? ==> r == ""
    ensures p.status.Some? && p.status.value.phase.Some? ==> r == Upper(p.status.value.phase.value)
  {
    var phase := if p.status.Some? && p.status.value.phase.Some? then p.status.value.phase.value else "";
    Upper(phase)
  }

  predicate IsComputeStatus(cs: ContainerStatus) {
    cs.name == Some("compute")
  }

  function ContainerStatuses(p: Pod): seq<ContainerStatus> {
    if p.status.Some? then p.status.value.containerStatuses else []
  }

  /** `_compute_container_ready`: the statuses of the `compute` containers,
      or all statuses when there is none, are all ready, and there is at
      least one. */
  function ComputeContainerReady(p: Pod): bool {
    var statuses := ContainerStatuses(p);
    var compute := Filter(statuses, IsComputeStatus);
    var target := if compute != [] then compute else statuses;
    target != [] && forall cs :: cs in target ==> cs.ready
  }

  /** With a `compute` container status, readiness is that of every
      `compute` status; without one it is that of every status, and a pod
      with no statuses is not ready. */
  lemma ComputeContainerReadyMeaning(p: Pod)
    ensures (exists cs :: cs in ContainerStatuses(p) && IsComputeStatus(cs)) ==>
              (ComputeContainerReady(p) <==> forall cs :: cs in ContainerStatuses(p) && IsComputeStatus(cs) ==> cs.ready)
    ensures (forall cs :: cs in ContainerStatuses(p) ==> !IsComputeStatus(cs)) ==>
              (ComputeContainerReady(p) <==> ContainerStatuses(p) != [] && forall cs :: cs in ContainerStatuses(p) ==> cs.ready)
  {
    var statuses := ContainerStatuses(p);
    var compute := Filter(statuses, IsComputeStatus);
    FilterMembershipAll(statuses, IsComputeStatus);
    if cs :| cs in statuses && IsComputeStatus(cs) {
      assert cs in compute;
    } else {
      FilterNone(statuses, IsComputeStatus);
    }
  }

  /** `_pod_start_time`: the first of the status's `start_time` and
      `startTime` and the metadata's `creation_timestamp` and
      `creationTimestamp` that is present, else `datetime.min`. */
  function PodStartTime(p: Pod): (r: int)
    ensures p.status.Some? && p.status.value.startTime.Some? ==> r == p.status.value.startTime.value
    ensures r == DatetimeMin ||
            (p.status.Some? && (p.status.value.startTime == Some(r) || p.status.value.startTimeCamel == Some(r))) ||
            (p.metadata.Some? && (p.metadata.value.creationTimestamp == Some(r) ||
                                  p.metadata.value.creationTimestampCamel == Some(r)))
    ensures (p.status.None? || (p.status.value.startTime.None? && p.status.value.startTimeCamel.None?)) &&
            (p.metadata.None? || (p.metadata.value.creationTimestamp.None? && p.metadata.value.creationTimestampCamel.None?)) ==>
              r == DatetimeMin
  {
    if p.status.Some? && p.status.value.startTime.Some? then p.status.value.startTime.value
    else if p.status.Some? && p.status.value.startTimeCamel.Some? then p.status.value.startTimeCamel.value
    else if p.metadata.Some? && p.metadata.value.creationTimestamp.Some? then p.metadata.value.creationTimestamp.value
    else if p.metadata.Some? && p.metadata.value.creationTimestampCamel.Some? then p.metadata.value.creationTimestampCamel.value
    else DatetimeMin
  }

  /** `max(bucket, key=_pod_start_time)`: the index of the first pod with
      the latest start time. */
  function LatestStarted(bucket: seq<Pod>): (k: nat)
    requires bucket != []
    ensures k < |bucket|
    ensures forall i :: 0 <= i < |bucket| ==> PodStartTime(bucket[i]) <= PodStartTime(bucket[k])
    ensures forall i :: 0 <= i < k ==> PodStartTime(bucket[i]) < PodStartTime(bucket[k])
    decreases |bucket|
  {
    if |bucket| == 1 then 0
    else
      var k := LatestStarted(bucket[..|bucket| - 1]);
      if PodStartTime(bucket[|bucket| - 1]) > PodStartTime(bucket[k]) then |bucket| - 1 else k
  }

  predicate IsRunning(p: Pod) { PodPhase(p) == "RUNNING" }

  predicate IsReadyRunning(p: Pod) { IsRunning(p) && ComputeContainerReady(p) }

  predicate IsPending(p: Pod) { PodPhase(p) == "PENDING" }

  /** The latest-started pod of a non-empty bucket. */
  function Latest(bucket: seq<Pod>): Pod
    requires bucket != []
  {
    bucket[LatestStarted(bucket)]
  }

  /** `_choose_vm_pod`: the latest-started pod of the first non-empty
      bucket among the running pods whose compute container is ready, the
      running pods, the pending pods and all candidates. */
  function ChooseVmPod(candidates: seq<Pod>): Result<Pod> {
    var ready := Filter(candidates, IsReadyRunning);
    var running := Filter(candidates, IsRunning);
    var pending := Filter(candidates, IsPending);
    if ready != [] then Ok(Latest(ready))
    else if running != [] then Ok(Latest(running))
    else if pending != [] then Ok(Latest(pending))
    else if candidates != [] then Ok(Latest(candidates))
    else Err(Raised("VelaKubernetesError", "No eligible pods available"))
  }

  /** The chosen pod is a candidate of the best class present and started
      no earlier than any candidate of that class. */
  predicate ChosenFrom(candidates: seq<Pod>, chosen: Pod, bucketOf: Pod -> bool) {
    bucketOf(chosen) && forall q :: q in candidates && bucketOf(q) ==> PodStartTime(q) <= PodStartTime(chosen)
  }

  /** A pod is chosen exactly when there are candidates, and it is one of
      them. */
  lemma ChooseVmPodChoosesCandidate(candidates: seq<Pod>)
    ensures ChooseVmPod(candidates).Ok? <==> candidates != []
    ensures ChooseVmPod(candidates).Ok? ==> ChooseVmPod(candidates).value in candidates
  {
    LatestIsMax(Filter(candidates, IsReadyRunning));
    LatestIsMax(Filter(candidates, IsRunning));
    LatestIsMax(Filter(candidates, IsPending));
    LatestIsMax(candidates);
  }

  /** A running pod whose compute container is ready wins over all others. */
  lemma ChooseVmPodPrefersReady(candidates: seq<Pod>, p: Pod)
    requires p in candidates && IsReadyRunning(p)
    ensures ChosenFrom(candidates, ChooseVmPod(candidates).value, IsReadyRunning)
  {
    FilterMembershipAll(candidates, IsReadyRunning);
    LatestIsMax(Filter(candidates, IsReadyRunning));
  }

  /** Without a ready one, a running pod wins. */
  lemma ChooseVmPodPrefersRunning(candidates: seq<Pod>, p: Pod)
    requires forall q :: q in candidates ==> !IsReadyRunning(q)
    requires p in candidates && IsRunning(p)
    ensures ChosenFrom(candidates, ChooseVmPod(candidates).value, IsRunning)
  {
    FilterNone(candidates, IsReadyRunning);
    FilterMembershipAll(candidates, IsRunning);
    LatestIsMax(Filter(candidates, IsRunning));
  }

  /** Without a running one, a pending pod wins. */
  lemma ChooseVmPodPrefersPending(candidates: seq<Pod>, p: Pod)
    requires forall q :: q in candidates ==> !IsRunning(q)
    requires p in candidates && IsPending(p)
    ensures ChosenFrom(candidates, ChooseVmPod(candidates).value, IsPending)
  {
    FilterNone(candidates, IsReadyRunning);
    FilterNone(candidates, IsRunning);
    FilterMembershipAll(candidates, IsPending);
    LatestIsMax(Filter(candidates, IsPending));
  }

  /** Without a running or pending one, the latest-started candidate wins. */
  lemma ChooseVmPodFallsBack(candidates: seq<Pod>)
    requires candidates != []
    requires forall q :: q in candidates ==> !IsRunning(q) && !IsPending(q)
    ensures ChosenFrom(candidates, ChooseVmPod(candidates).value, _ => true)
  {
    FilterNone(candidates, IsReadyRunning);
    FilterNone(candidates, IsRunning);
    FilterNone(candidates, IsPending);
    LatestIsMax(candidates);
  }

  /** The latest pod of a bucket belongs to it and started no earlier than
      any of its pods. */
  lemma LatestIsMax(bucket: seq<Pod>)
    ensures bucket != [] ==> Latest(bucket) in bucket
    ensures bucket != [] ==> forall q :: q in bucket ==> PodStartTime(q) <= PodStartTime(Latest(bucket))
  {
    if bucket != [] {
      var k := LatestStarted(bucket);
      forall q | q in bucket
        ensures PodStartTime(q) <= PodStartTime(bucket[k])
      {
        var i :| 0 <= i < |bucket| && bucket[i] == q;
      }
    }
  }

  // ---------------------------------------------------- pod memory request

  /** The memory of one container: its request, else its limit, each only
      when non-empty. */
  function MemoryOf(c: Container): (r: Option<string>)
    ensures r.Some? ==> r.value != []
    ensures r.Some? ==> ("memory" in c.requests && c.requests["memory"] == r.value) ||
                        ("memory" in c.limits && c.limits["memory"] == r.value)
    ensures "memory" in c.requests && c.requests["memory"] != [] ==> r == Some(c.requests["memory"])
  {
    if "memory" in c.requests && c.requests["memory"] != [] then Some(c.requests["memory"])
    else if "memory" in c.limits && c.limits["memory"] != [] then Some(c.limits["memory"])
    else None
  }

  predicate IsCompute(c: Container) {
    c.name == Some("compute")
  }

  /** The memory of the first `compute` container that has one. */
  function FirstComputeMemory(cs: seq<Container>): Option<string> {
    if cs == [] then None
    else if IsCompute(cs[0]) && MemoryOf(cs[0]).Some? then MemoryOf(cs[0])
    else FirstComputeMemory(cs[1..])
  }

  /** The memory of the first container that has one. */
  function FirstMemory(cs: seq<Container>): Option<string> {
    if cs == [] then None
    else if MemoryOf(cs[0]).Some? then MemoryOf(cs[0])
    else FirstMemory(cs[1..])
  }

  /** The memory a pod's containers request: a `compute` container's first,
      else any container's. */
  function ContainerMemory(cs: seq<Container>): Option<string> {
    if FirstComputeMemory(cs).Some? then FirstComputeMemory(cs) else FirstMemory(cs)
  }

  /** The first compute container with a memory value supplies it. */
  lemma {:induction false} FirstComputeMemoryMeaning(cs: seq<Container>)
    ensures FirstComputeMemory(cs).None? <==> forall i :: 0 <= i < |cs| && IsCompute(cs[i]) ==> MemoryOf(cs[i]).None?
    ensures FirstComputeMemory(cs).Some? ==>
              exists i :: 0 <= i < |cs| && IsCompute(cs[i]) && MemoryOf(cs[i]) == FirstComputeMemory(cs)
  {
    if cs != [] {
      FirstComputeMemoryMeaning(cs[1..]);
      if !(IsCompute(cs[0]) && MemoryOf(cs[0]).Some?) && FirstComputeMemory(cs).Some? {
        var i :| 0 <= i < |cs[1..]| && IsCompute(cs[1..][i]) && MemoryOf(cs[1..][i]) == FirstComputeMemory(cs[1..]);
        assert cs[i + 1] == cs[1..][i];
      }
    }
  }

  /** The first container with a memory value supplies it. */
  lemma {:induction false} FirstMemoryMeaning(cs: seq<Container>)
    ensures FirstMemory(cs).None? <==> forall i :: 0 <= i < |cs| ==> MemoryOf(cs[i]).None?
    ensures FirstMemory(cs).Some? ==> exists i :: 0 <= i < |cs| && MemoryOf(cs[i]) == FirstMemory(cs)
  {
    if cs != [] {
      FirstMemoryMeaning(cs[1..]);
      if MemoryOf(cs[0]).None? && FirstMemory(cs).Some? {
        var i :| 0 <= i < |cs[1..]| && MemoryOf(cs[1..][i]) == FirstMemory(cs[1..]);
        assert cs[i + 1] == cs[1..][i];
      }
    }
  }

  /** A pod's memory is absent exactly when no container has one; a
      `compute` container's memory is preferred whenever there is one, and
      the result is always some container's memory. */
  lemma ContainerMemoryMeaning(cs: seq<Container>)
    ensures ContainerMemory(cs).None? <==> forall i :: 0 <= i < |cs| ==> MemoryOf(cs[i]).None?
    ensures ContainerMemory(cs).Some? ==> exists i :: 0 <= i < |cs| && MemoryOf(cs[i]) == ContainerMemory(cs)
    ensures (exists i :: 0 <= i < |cs| && IsCompute(cs[i]) && MemoryOf(cs[i]).Some?) ==>
              exists i :: 0 <= i < |cs| && IsCompute(cs[i]) && MemoryOf(cs[i]) == ContainerMemory(cs)
  {
    FirstComputeMemoryMeaning(cs);
    FirstMemoryMeaning(cs);
  }

  /** `_compute_container_memory`: one pass that returns the first
      `compute` container's memory and otherwise remembers the first memory
      value seen. */
  method ComputeContainerMemory(p: Pod) returns (r: Option<string>)
    ensures r == ContainerMemory(p.containers)
  {
    var cs := p.containers;
    var fallback: Option<string> := None;
    var i := 0;
    while i < |cs|
      invariant 0 <= i <= |cs|
      invariant FirstComputeMemory(cs) == FirstComputeMemory(cs[i..])
      invariant fallback.Some? ==> fallback == FirstMemory(cs)
      invariant fallback.None? ==> FirstMemory(cs) == FirstMemory(cs[i..])
    {
      assert cs[i..][1..] == cs[i + 1..];
      var memory := MemoryOf(cs[i]);
      if memory.Some? {
        if IsCompute(cs[i]) {
          return memory;
        }
        if fallback.None? {
          fallback := memory;
        }
      }
      i := i + 1;
    }
    return fallback;
  }

  /** Python's `repr` of a `str`, for the names Kubernetes admits (lower-case
      letters, digits, '-', '.' and, in a label selector, '=' and '/'), none of
      which needs escaping. */
  function Quoted(s: string): string {
    "'" + s + "'"
  }

  /** The label selector `get_vm_pod_name` lists pods with. */
  function VmLabel(vmName: string): string {
    "vm.kubevirt.io/name=" + vmName
  }

  /** `get_vm_pod_name`, given the items `list_pods` received for the VM's
      label: an empty listing is `list_pods`'s own VelaKubernetesError, a
      listing without an eligible pod is `get_vm_pod_name`'s; otherwise the
      chosen eligible pod's name and its memory request. */
  method GetVmPodName(namespace: string, vmName: string, pods: seq<Pod>) returns (r: Result<(string, Option<string>)>)
    ensures r.Err? <==> forall p :: p in pods ==> !IsEligible(p)
    ensures pods == [] ==>
              r == Err(Raised("VelaKubernetesError", "No pods found for " + Quoted(VmLabel(vmName)) + " in namespace " + Quoted(namespace)))
    ensures pods != [] && r.Err? ==>
              r == Err(Raised("VelaKubernetesError", "No pods found for VM " + Quoted(vmName) + " in namespace " + Quoted(namespace)))
    ensures r.Ok? ==>
              var chosen := ChooseVmPod(Filter(pods, IsEligible));
              chosen.Ok? && IsEligible(chosen.value) &&
              r.value == (chosen.value.metadata.value.name, ContainerMemory(chosen.value.containers))
  {
    if pods == [] {
      return Err(Raised("VelaKubernetesError", "No pods found for " + Quoted(VmLabel(vmName)) + " in namespace " + Quoted(namespace)));
    }
    var candidates := EligibleVmPods(pods);
    if candidates == [] {
      return Err(Raised("VelaKubernetesError", "No pods found for VM " + Quoted(vmName) + " in namespace " + Quoted(namespace)));
    }
    ChooseVmPodChoosesCandidate(candidates);
    var chosen := ChooseVmPod(candidates);
    var memory := ComputeContainerMemory(chosen.value);
    r := Ok((chosen.value.metadata.value.name, memory));
  }
}
