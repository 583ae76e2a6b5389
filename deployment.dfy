/** Naming, addressing and sizing of a branch deployment: the Kubernetes
    namespace of a branch and its inverse, DNS names and the REST endpoint,
    the autoscaler VM name, CPU and memory sizing, the per-branch storage
    class, the compose manifest, resize parameters and the load balancer's
    IPv6 address. Settings are parameters. */
module Deployment {
  import opened Common
  import U = UtilPkg

  const ChartName: string := "vela"

  // ---------------------------------------------------------------------
  // Namespaces (deployment/_util.py) and their inverse

  /** `deployment_namespace`, with the configured prefix `prefix`. */
  function DeploymentNamespace(branchId: Ulid, prefix: string): (r: string)
    ensures EndsWith(r, Lower(branchId))
    ensures prefix != "" ==> StartsWith(r, prefix + "-") && |r| == |prefix| + 1 + |branchId|
    ensures prefix == "" ==> r == Lower(branchId)
  {
    var branchValue := Lower(branchId);
    if prefix != "" then
      assert (prefix + "-" + branchValue)[..|prefix + "-"|] == prefix + "-";
      prefix + "-" + branchValue
    else branchValue
  }

  function PrefixMismatch(namespace: string, prefix: string): Failure {
    Raised("VelaDeploymentError", "Namespace '" + namespace + "' does not match deployment prefix '" + prefix + "'")
  }

  function InvalidUlid(namespace: string): Failure {
    Raised("VelaDeploymentError", "Invalid branch ULID in namespace '" + namespace + "'")
  }

  /** The part of a normalised namespace after the prefix token, when the
      namespace carries it. */
  function NamespaceSuffix(normalized: string, prefix: string): Option<string> {
    if prefix == "" then Some(normalized)
    else if StartsWith(normalized, prefix + "-") then Some(normalized[|prefix + "-"|..])
    else None
  }

  /** `deployment_branch`: the branch a namespace belongs to. */
  function DeploymentBranch(namespace: string, prefixSetting: string): (r: Result<Ulid>)
    ensures var prefix := Lower(Strip(prefixSetting));
      var normalized := Lower(Strip(namespace));
      (prefix != "" && !StartsWith(normalized, prefix + "-") ==> r == Err(PrefixMismatch(namespace, prefix))) &&
      (NamespaceSuffix(normalized, prefix).Some? ==>
         (r.Ok? <==> IsUlidText(Upper(NamespaceSuffix(normalized, prefix).value))) &&
         (r.Ok? ==> Upper(NamespaceSuffix(normalized, prefix).value) == r.value) &&
         (r.Err? ==> r.failure == InvalidUlid(namespace)))
  {
    var prefix := Lower(Strip(prefixSetting));
    var normalized := Lower(Strip(namespace));
    match NamespaceSuffix(normalized, prefix)
    case None => Err(PrefixMismatch(namespace, prefix))
    case Some(suffix) =>
      match UlidFromStr(Upper(suffix))
      case Some(id) => Ok(id)
      case None => Err(InvalidUlid(namespace))
  }

  lemma LowerUlidHasNoSpace(id: Ulid)
    ensures |Lower(id)| == 26
    ensures forall i :: 0 <= i < 26 ==> !IsSpace(Lower(id)[i])
  {
    forall i | 0 <= i < 26 ensures !IsSpace(Lower(id)[i]) {
      assert IsCrockford(id[i]);
    }
  }

  /** The namespace of a branch leads back to the branch, for any prefix
      without surrounding blanks: the blanks are the only thing
      `deployment_branch` strips, and it compares without letter case. */
  lemma NamespaceRoundTrip(id: Ulid, prefix: string)
    requires Strip(prefix) == prefix
    ensures DeploymentBranch(DeploymentNamespace(id, prefix), prefix) == Ok(id)
  {
    var lowered := Lower(id);
    LowerUlidHasNoSpace(id);
    var ns := DeploymentNamespace(id, prefix);
    var p := Lower(prefix);
    if prefix != "" {
      assert ns == prefix + "-" + lowered;
      assert ns[0] == prefix[0];
      assert ns[|ns| - 1] == lowered[25];
      StripNoSpace(ns);
      LowerAppend(prefix + "-", lowered);
      LowerAppend(prefix, "-");
      LowerIdempotent(id);
      LowerOfLowered(lowered);
      assert Lower("-") == "-";
      var normalized := Lower(ns);
      assert normalized == p + "-" + lowered;
      assert normalized[..|p + "-"|] == p + "-";
      assert normalized[|p + "-"|..] == lowered;
      assert NamespaceSuffix(normalized, p) == Some(lowered);
    } else {
      assert ns == lowered;
      assert ns[0] == lowered[0] && ns[|ns| - 1] == lowered[25];
      StripNoSpace(ns);
      LowerIdempotent(id);
      LowerOfLowered(lowered);
      assert Lower(Strip(ns)) == lowered;
      assert Lower(Strip(prefix)) == "";
    }
    UpperLowerUlid(id);
  }

  /** A namespace without the prefix token is refused, whatever follows. */
  lemma ForeignNamespaceRefused(namespace: string, prefix: string)
    requires prefix != "" && Strip(prefix) == prefix && HasNoUpper(prefix)
    requires !StartsWith(Lower(Strip(namespace)), prefix + "-")
    ensures DeploymentBranch(namespace, prefix) == Err(PrefixMismatch(namespace, prefix))
  {
    LowerOfLowered(prefix);
  }

  // ---------------------------------------------------------------------
  // Names and addresses

  /** `branch_storage_class_name`. */
  function BranchStorageClassName(branchId: Ulid): (r: string)
    ensures StartsWith(r, "sc-") && r[3..] == Lower(branchId)
    ensures HasNoUpper(r)
  {
    LowerIdempotent(branchId);
    assert ("sc-" + Lower(branchId))[3..] == Lower(branchId);
    "sc-" + Lower(branchId)
  }

  /** `branch_dns_label`. */
  function BranchDnsLabel(branchId: Ulid): (r: string)
    ensures HasNoUpper(r) && Upper(r) == branchId
  {
    LowerIdempotent(branchId);
    UpperLowerUlid(branchId);
    Lower(branchId)
  }

  const MissingSuffix: Failure := Raised("VelaDeploymentError", "cloudflare dns domain suffix not configured")

  /** `branch_api_domain`, with the configured domain suffix. */
  function BranchApiDomain(branchId: Ulid, suffixSetting: string): (r: Option<string>)
    ensures r.None? <==> Strip(suffixSetting) == ""
    ensures r.Some? ==> HasNoUpper(r.value) && StartsWith(r.value, BranchDnsLabel(branchId) + ".")
  {
    var suffix := Strip(suffixSetting);
    if suffix == "" then None
    else
      var d := Lower(BranchDnsLabel(branchId) + "." + suffix);
      LowerIdempotent(BranchDnsLabel(branchId) + "." + suffix);
      LowerAppend(BranchDnsLabel(branchId) + ".", suffix);
      LowerAppend(BranchDnsLabel(branchId), ".");
      LowerOfLowered(BranchDnsLabel(branchId));
      assert Lower(".") == ".";
      assert d[..|BranchDnsLabel(branchId) + "."|] == BranchDnsLabel(branchId) + ".";
      Some(d)
  }

  /** `branch_db_domain`: the API domain under "db.", or the error raised
      when no suffix is configured. */
  function BranchDbDomain(branchId: Ulid, suffixSetting: string): (r: Result<string>)
    ensures r.Err? <==> Strip(suffixSetting) == ""
    ensures r.Err? ==> r.failure == MissingSuffix
    ensures r.Ok? ==> r.value == "db." + BranchApiDomain(branchId, suffixSetting).value
  {
    var suffix := Strip(suffixSetting);
    if suffix == "" then Err(MissingSuffix)
    else
      DbDomainUnderApiDomain(branchId, suffixSetting);
      Ok(Lower("db." + BranchDnsLabel(branchId) + "." + suffix))
  }

  lemma DbDomainUnderApiDomain(branchId: Ulid, suffixSetting: string)
    requires Strip(suffixSetting) != ""
    ensures BranchApiDomain(branchId, suffixSetting).Some?
    ensures Lower("db." + BranchDnsLabel(branchId) + "." + Strip(suffixSetting)) ==
            "db." + BranchApiDomain(branchId, suffixSetting).value
  {
    var name := BranchDnsLabel(branchId) + "." + Strip(suffixSetting);
    assert BranchApiDomain(branchId, suffixSetting) == Some(Lower(name));
    assert "db." + BranchDnsLabel(branchId) + "." + Strip(suffixSetting) == "db." + name;
    LowerUnderDb(name);
  }

  lemma LowerUnderDb(name: string)
    ensures Lower("db." + name) == "db." + Lower(name)
  {
    LowerAppend("db.", name);
    LowerOfLowered("db.");
  }

  /** `branch_rest_endpoint`, with the configured service port. */
  function BranchRestEndpoint(branchId: Ulid, suffixSetting: string, port: int): (r: Option<string>)
    ensures r.None? <==> BranchApiDomain(branchId, suffixSetting).None?
    ensures r.Some? && port == 443 ==> r.value == "https://" + BranchApiDomain(branchId, suffixSetting).value + "/rest"
    ensures r.Some? && port != 443 ==>
              r.value == "https://" + BranchApiDomain(branchId, suffixSetting).value + ":" + IntToString(port) + "/rest"
  {
    match BranchApiDomain(branchId, suffixSetting)
    case None => None
    case Some(domain) =>
      if port == 443 then Some("https://" + domain + "/rest")
      else Some("https://" + domain + ":" + IntToString(port) + "/rest")
  }

  /** `_release_fullname`, with the configured release name. */
  function ReleaseFullname(release: string): (r: string)
    ensures Contains(r, ChartName)
    ensures Contains(release, ChartName) ==> r == release
    ensures !Contains(release, ChartName) ==> r == release + "-" + ChartName
  {
    if Contains(release, ChartName) then release
    else
      var r := release + "-" + ChartName;
      assert OccursAt(r, ChartName, |release| + 1);
      r
  }

  /** `_autoscaler_vm_name`: a Kubernetes name of at most 63 characters,
      never ending in '-', cut from the full name. */
  function AutoscalerVmName(release: string): (r: string)
    ensures |r| <= 63
    ensures r != [] ==> r[|r| - 1] != '-'
    ensures StartsWith(ReleaseFullname(release) + "-autoscaler-vm", r)
  {
    var name := ReleaseFullname(release) + "-autoscaler-vm";
    var cut := Take(name, 63);
    var r := RStripChar(cut, '-');
    assert name[..|r|] == cut[..|r|];
    r
  }

  /** `branch_service_name`: the release's full name, '-' and the
      component, which reads back from the end of the name. */
  function BranchServiceName(release: string, component: string): (r: string)
    ensures |r| == |ReleaseFullname(release)| + 1 + |component|
    ensures r[|r| - |component|..] == component && r[|r| - |component| - 1] == '-'
    ensures r[..|r| - |component| - 1] == ReleaseFullname(release)
  {
    ReleaseFullname(release) + "-" + component
  }

  /** The services of one release have distinct names for distinct
      components. */
  lemma ServiceNamesDistinct(release: string, first: string, second: string)
    requires first != second
    ensures BranchServiceName(release, first) != BranchServiceName(release, second)
  {
  }

  /** `get_autoscaler_vm_identity`: the namespace and VM name of a branch. */
  function AutoscalerVmIdentity(branchId: Ulid, prefix: string, release: string): (r: (string, string))
    ensures r.0 == DeploymentNamespace(branchId, prefix) && r.1 == AutoscalerVmName(release)
  {
    (DeploymentNamespace(branchId, prefix), AutoscalerVmName(release))
  }

  // ---------------------------------------------------------------------
  // CPU and memory sizing

  /** Python's `int()` of a float: truncation toward zero, here of n / 4. */
  function TruncQuarter(n: int): (r: int)
    ensures n >= 0 ==> 0 <= 4 * r <= n < 4 * r + 4
    ensures n < 0 ==> 4 * r - 4 < n <= 4 * r <= 0
  {
    if n >= 0 then n / 4 else -((-n) / 4)
  }

  /** The request in thousandths of a CPU: a quarter of the limit, at least 1. */
  function CpuRequestMilli(milliVcpu: int): (r: int)
    ensures r >= 1
    ensures milliVcpu >= 4 ==> 4 * r <= milliVcpu < 4 * r + 4
    ensures milliVcpu < 4 ==> r == 1
  {
    Max(1, TruncQuarter(milliVcpu))
  }

  /** `calculate_cpu_resources`: the limit and request quantities. */
  function CalculateCpuResources(milliVcpu: int): (r: (string, string))
    ensures r.0 == IntToString(milliVcpu) + "m"
    ensures r.1 == IntToString(CpuRequestMilli(milliVcpu)) + "m"
  {
    (IntToString(milliVcpu) + "m", IntToString(CpuRequestMilli(milliVcpu)) + "m")
  }

  /** The quantities read back as the numbers they render. */
  lemma CpuQuantitiesReadBack(milliVcpu: int)
    ensures var (limit, request) := CalculateCpuResources(milliVcpu);
      EndsWith(limit, "m") && ParseInt(limit[..|limit| - 1]) == Some(milliVcpu) &&
      EndsWith(request, "m") && ParseInt(request[..|request| - 1]) == Some(CpuRequestMilli(milliVcpu))
  {
    var (limit, request) := CalculateCpuResources(milliVcpu);
    assert limit[..|limit| - 1] == IntToString(milliVcpu);
    assert request[..|request| - 1] == IntToString(CpuRequestMilli(milliVcpu));
    IntRoundTrip(milliVcpu);
    IntRoundTrip(CpuRequestMilli(milliVcpu));
  }

  /** The min/use/max CPU quantities of the autoscaler VM. */
  datatype CpuRange = CpuRange(min: string, use: string, max: string)

  /** `calculate_autoscaler_vm_cpus`. */
  function CalculateAutoscalerVmCpus(milliVcpu: int): (r: CpuRange)
    ensures r.min == IntToString(U.VcpuMillisMin) + "m" && r.max == IntToString(U.VcpuMillisMax) + "m"
    ensures r.use == IntToString(Max(1, milliVcpu)) + "m"
  {
    CpuRange(IntToString(U.VcpuMillisMin) + "m", IntToString(Max(1, milliVcpu)) + "m", IntToString(U.VcpuMillisMax) + "m")
  }

  /** The memory slot counts of the autoscaler VM. */
  datatype MemorySlots = MemorySlots(min: int, use: int, limit: int, max: int)

  /** The number of 256 MiB slots the memory needs, at least 1. */
  function DesiredSlots(memoryBytes: int): (r: int)
    ensures r >= 1
    ensures var mib := Max(1, U.BytesToMib(memoryBytes));
      (r - 1) * U.AutoscalerMemorySlotSizeMib < mib <= r * U.AutoscalerMemorySlotSizeMib
  {
    var mib := Max(1, U.BytesToMib(memoryBytes));
    CeilDiv(mib, U.AutoscalerMemorySlotSizeMib)
  }

  /** `calculate_autoscaler_vm_memory`: the slot size and the slot counts. */
  function CalculateAutoscalerVmMemory(memoryBytes: int): (r: (string, MemorySlots))
    ensures r.0 == "256Mi"
    ensures r.1.min == U.AutoscalerMemorySlotsMin && r.1.max == U.AutoscalerMemorySlotsMax
    ensures r.1.use == r.1.limit
    ensures U.AutoscalerMemorySlotsMin <= r.1.use <= U.AutoscalerMemorySlotsMax
    ensures U.AutoscalerMemorySlotsMin <= DesiredSlots(memoryBytes) <= U.AutoscalerMemorySlotsMax ==>
              r.1.use == DesiredSlots(memoryBytes)
  {
    U.SlotConstants();
    var target := Min(Max(DesiredSlots(memoryBytes), U.AutoscalerMemorySlotsMin), U.AutoscalerMemorySlotsMax);
    assert IntToString(256) == "256";
    (IntToString(U.AutoscalerMemorySlotSizeMib) + "Mi",
     MemorySlots(U.AutoscalerMemorySlotsMin, target, target, U.AutoscalerMemorySlotsMax))
  }

  /** Because the slot bounds are byte counts divided by a MiB figure, the
      floor of 4194304 slots dominates every memory size up to a pebibyte. */
  lemma SlotFloorDominates(memoryBytes: int)
    requires memoryBytes <= 1024 * 1024 * 1024 * 1024 * 1024
    ensures CalculateAutoscalerVmMemory(memoryBytes).1.use == U.AutoscalerMemorySlotsMin
  {
    U.SlotConstants();
    var mib := Max(1, U.BytesToMib(memoryBytes));
    assert mib <= 1024 * 1024 * 1024;
    assert DesiredSlots(memoryBytes) <= 4194304;
  }

  // ---------------------------------------------------------------------
  // The per-branch storage class

  /** The attributes of the base storage class that the manifest copies;
      parameter values are already rendered with `str()`. */
  datatype BaseStorageClass = BaseStorageClass(
    provisioner: Option<string>,
    parameters: Option<map<string, string>>,
    allowVolumeExpansion: Option<bool>,
    volumeBindingMode: Option<string>,
    reclaimPolicy: Option<string>,
    mountOptions: Option<seq<string>>)

  datatype StorageClassManifest = StorageClassManifest(
    name: string,
    provisioner: string,
    parameters: map<string, string>,
    reclaimPolicy: Option<string>,
    volumeBindingMode: Option<string>,
    allowVolumeExpansion: Option<bool>,
    mountOptions: Option<seq<string>>)

  const QosKeys: set<string> := {"qos_rw_iops", "qos_rw_mbytes", "qos_r_mbytes", "qos_w_mbytes"}

  /** The base parameters with the QoS keys overridden. */
  function QosParameters(base: map<string, string>, iops: int): (r: map<string, string>)
    ensures r.Keys == base.Keys + QosKeys
    ensures r["qos_rw_iops"] == IntToString(iops)
    ensures r["qos_rw_mbytes"] == "0" && r["qos_r_mbytes"] == "0" && r["qos_w_mbytes"] == "0"
    ensures forall k :: k in base && k !in QosKeys ==> r[k] == base[k]
  {
    base["qos_rw_iops" := IntToString(iops)]["qos_rw_mbytes" := "0"]["qos_r_mbytes" := "0"]["qos_w_mbytes" := "0"]
  }

  /** `_build_storage_class_manifest`. */
  function BuildStorageClassManifest(storageClassName: string, iops: int, base: BaseStorageClass): (r: Result<StorageClassManifest>)
    ensures base.provisioner.None? || base.provisioner.value == "" ==>
              r == Err(Raised("VelaKubernetesError", "Base storage class missing provisioner"))
    ensures base.provisioner.Some? && base.provisioner.value != "" ==>
              var params := base.parameters.GetOr(map[]);
              (r.Err? <==> "cluster_id" !in params || params["cluster_id"] == "") &&
              (r.Err? ==> r.failure == Raised("VelaKubernetesError", "Base storage class missing required parameter 'cluster_id'"))
    ensures r.Ok? ==>
              r.value.name == storageClassName && r.value.provisioner == base.provisioner.value &&
              r.value.parameters == QosParameters(base.parameters.GetOr(map[]), iops) &&
              r.value.reclaimPolicy == base.reclaimPolicy && r.value.volumeBindingMode == base.volumeBindingMode &&
              r.value.allowVolumeExpansion == base.allowVolumeExpansion
    ensures r.Ok? ==>
              (r.value.mountOptions.Some? <==> base.mountOptions.Some? && base.mountOptions.value != []) &&
              (r.value.mountOptions.Some? ==> r.value.mountOptions == base.mountOptions)
  {
    if base.provisioner.None? || base.provisioner.value == "" then
      Err(Raised("VelaKubernetesError", "Base storage class missing provisioner"))
    else
      var params := base.parameters.GetOr(map[]);
      if "cluster_id" !in params || params["cluster_id"] == "" then
        Err(Raised("VelaKubernetesError", "Base storage class missing required parameter 'cluster_id'"))
      else
        var mount := if base.mountOptions.Some? && base.mountOptions.value != [] then base.mountOptions else None;
        Ok(StorageClassManifest(storageClassName, base.provisioner.value, QosParameters(params, iops),
                                base.reclaimPolicy, base.volumeBindingMode, base.allowVolumeExpansion, mount))
  }

  // ---------------------------------------------------------------------
  // The compose manifest

  /** `_configure_compose_storage` on the manifest's `services` entry (`None`
      when it is not a mapping). */
  function ConfigureComposeStorage<S>(services: Option<map<string, S>>, enableFileStorage: bool): (r: Result<map<string, S>>)
    ensures services.None? <==> r.Err?
    ensures r.Err? ==> r.failure == Raised("VelaDeploymentError", "docker-compose manifest missing 'services' mapping")
    ensures r.Ok? && enableFileStorage ==> r.value == services.value
    ensures r.Ok? && !enableFileStorage ==> r.value.Keys == services.value.Keys - {"storage"}
    ensures r.Ok? ==> forall k :: k in r.value ==> r.value[k] == services.value[k]
  {
    if services.None? then Err(Raised("VelaDeploymentError", "docker-compose manifest missing 'services' mapping"))
    else if enableFileStorage then Ok(services.value)
    else Ok(services.value - {"storage"})
  }

  // ---------------------------------------------------------------------
  // ResizeParameters

  datatype ResizeParameters = ResizeParameters(databaseSize: Option<int>, storageSize: Option<int>,
                                               memoryBytes: Option<int>, milliVcpu: Option<int>, iops: Option<int>)

  predicate Admits(c: U.Constraint, v: Option<int>) {
    v.None? || U.Satisfies(c, v.value)
  }

  predicate FieldsValid(p: ResizeParameters) {
    Admits(U.DatabaseSizeConstraints, p.databaseSize) && Admits(U.StorageSizeConstraints, p.storageSize) &&
    Admits(U.MemoryConstraints, p.memoryBytes) && Admits(U.CpuConstraints, p.milliVcpu) &&
    Admits(U.IopsConstraints, p.iops)
  }

  predicate AnyGiven(p: ResizeParameters) {
    p.databaseSize.Some? || p.storageSize.Some? || p.memoryBytes.Some? || p.milliVcpu.Some? || p.iops.Some?
  }

  const NothingToResize: Failure :=
    ValidatorFailure("Specify at least one of database_size, storage_size, memory_bytes, milli_vcpu, or iops")

  /** Validation of `ResizeParameters`: the field constraints, then the
      model validator that asks for at least one field. */
  function ValidateResizeParameters(p: ResizeParameters): (r: Result<ResizeParameters>)
    ensures r.Ok? <==> FieldsValid(p) && AnyGiven(p)
    ensures r.Ok? ==> r.value == p
    ensures FieldsValid(p) && !AnyGiven(p) ==> r == Err(NothingToResize)
    ensures !FieldsValid(p) ==> r.Err? && r.failure.Raised? && r.failure.kind == "ValidationError"
  {
    if !FieldsValid(p) then Err(Raised("ValidationError", "resize parameter out of range"))
    else if !AnyGiven(p) then Err(NothingToResize)
    else Ok(p)
  }

  // ---------------------------------------------------------------------
  // The load balancer's IPv6 address

  datatype Ingress = Ingress(ip: Option<string>)
  datatype LoadBalancer = LoadBalancer(ingress: Option<seq<Ingress>>)
  /** A service's status: `load_balancer` is looked up before `loadBalancer`. */
  datatype ServiceStatus = ServiceStatus(loadBalancer: Option<LoadBalancer>, loadBalancerCamel: Option<LoadBalancer>)
  datatype Service = Service(status: Option<ServiceStatus>)

  predicate IsIpv6(ip: Option<string>) {
    ip.Some? && ip.value != "" && ':' in ip.value
  }

  /** The ingress list `_extract_load_balancer_ipv6` searches. */
  function IngressOf(service: Service): seq<Ingress> {
    if service.status.None? then []
    else
      var lb := if service.status.value.loadBalancer.Some? then service.status.value.loadBalancer
                else service.status.value.loadBalancerCamel;
      if lb.None? || lb.value.ingress.None? then [] else lb.value.ingress.value
  }

  /** `_extract_load_balancer_ipv6`: the first ingress address holding ':'. */
  method ExtractLoadBalancerIpv6(service: Service) returns (r: Option<string>)
    ensures r.Some? ==> exists i :: 0 <= i < |IngressOf(service)| && IngressOf(service)[i].ip == r &&
                                    IsIpv6(r) && forall j :: 0 <= j < i ==> !IsIpv6(IngressOf(service)[j].ip)
    ensures r.None? ==> forall i :: 0 <= i < |IngressOf(service)| ==> !IsIpv6(IngressOf(service)[i].ip)
  {
    var ingress := IngressOf(service);
    var i := 0;
    while i < |ingress|
      invariant 0 <= i <= |ingress|
      invariant forall j :: 0 <= j < i ==> !IsIpv6(ingress[j].ip)
    {
      if IsIpv6(ingress[i].ip) {
        return ingress[i].ip;
      }
      i := i + 1;
    }
    return None;
  }
}
