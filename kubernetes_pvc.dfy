/** Rebuilding a PersistentVolumeClaim manifest so that the claim is
    restored from a VolumeSnapshot (`build_pvc_manifest_from_existing`). */
module KubernetesPvc {
  import opened Common
  import D = Deployment

  /** The attributes of the existing claim's metadata that are read. */
  datatype ClaimMetadata = ClaimMetadata(name: Option<string>, labels: map<string, string>, annotations: map<string, string>)

  /** `spec.resources`; its `requests` attribute may be `None`. */
  datatype ClaimResources = ClaimResources(requests: Option<map<string, string>>)

  /** The attributes of the existing claim's spec that are read; both the
      snake-case and the camel-case spellings are consulted. */
  datatype ClaimSpec = ClaimSpec(accessModes: seq<string>,
                                 storageClassName: Option<string>, storageClassNameCamel: Option<string>,
                                 resources: Option<ClaimResources>,
                                 volumeMode: Option<string>, volumeModeCamel: Option<string>)

  datatype Claim = Claim(metadata: Option<ClaimMetadata>, spec: Option<ClaimSpec>)

  /** A typed reference to the VolumeSnapshot the new claim is restored from. */
  datatype SnapshotRef = SnapshotRef(apiGroup: string, kind: string, name: string)

  /** The manifest built; `None` members are left unset. */
  datatype ClaimManifest = ClaimManifest(name: string, labels: Option<map<string, string>>,
                                         annotations: Option<map<string, string>>,
                                         accessModes: Option<seq<string>>, dataSource: SnapshotRef,
                                         dataSourceRef: SnapshotRef, storageRequest: string,
                                         storageClassName: string, volumeMode: Option<string>)

  /** The controller-written annotations a restored claim must not carry. */
  const NoisyAnnotations: seq<string> := ["pv.kubernetes.io/bind-completed", "pv.kubernetes.io/bound-by-controller",
                                         "volume.beta.kubernetes.io/storage-provisioner",
                                         "kubectl.kubernetes.io/last-applied-configuration"]

  /** The loop that pops each noisy annotation. */
  method StripNoisyAnnotations(annotations: map<string, string>) returns (r: map<string, string>)
    ensures forall k :: k in r <==> k in annotations && k !in NoisyAnnotations
    ensures forall k :: k in r ==> r[k] == annotations[k]
  {
    r := annotations;
    var i := 0;
    while i < |NoisyAnnotations|
      invariant 0 <= i <= |NoisyAnnotations|
      invariant forall k :: k in r <==> k in annotations && k !in NoisyAnnotations[..i]
      invariant forall k :: k in r ==> r[k] == annotations[k]
    {
      assert NoisyAnnotations[..i + 1] == NoisyAnnotations[..i] + [NoisyAnnotations[i]];
      r := r - {NoisyAnnotations[i]};
      i := i + 1;
    }
    assert NoisyAnnotations[..i] == NoisyAnnotations;
  }

  function NonEmptyOr(first: Option<string>, second: Option<string>): Option<string> {
    if first.Some? && first.value != [] then first else second
  }

  function MapOrNone(m: map<string, string>): Option<map<string, string>> {
    if m == map[] then None else Some(m)
  }

  /** The `requests` of the claim's resources; a resources object whose
      `requests` is `None` fails like `None.get` does. */
  function ClaimRequests(spec: ClaimSpec): Result<map<string, string>> {
    if spec.resources.None? then Ok(map[])
    else if spec.resources.value.requests.None? then Err(Raised("AttributeError", "'NoneType' object has no attribute 'get'"))
    else Ok(spec.resources.value.requests.value)
  }

  /** The manifest `build_pvc_manifest_from_existing` builds. */
  function BuildPvcManifest(claim: Claim, branchId: Ulid, snapshotName: string): Result<ClaimManifest> {
    if claim.metadata.None? || claim.spec.None? then
      Err(Raised("VelaKubernetesError", "PersistentVolumeClaim missing metadata/spec"))
    else
      var metadata := claim.metadata.value;
      var spec := claim.spec.value;
      var annotations := map k | k in metadata.annotations && k !in NoisyAnnotations :: metadata.annotations[k];
      var given := NonEmptyOr(spec.storageClassName, spec.storageClassNameCamel);
      var storageClass := if given.Some? && given.value != [] then given.value else D.BranchStorageClassName(branchId);
      var requests := ClaimRequests(spec);
      if requests.Err? then Err(requests.failure)
      else if "storage" !in requests.value then
        Err(Raised("VelaKubernetesError", "PersistentVolumeClaim missing storage request"))
      else
        var source := SnapshotRef("snapshot.storage.k8s.io", "VolumeSnapshot", snapshotName);
        if metadata.name.None? || metadata.name.value == [] then
          Err(Raised("VelaKubernetesError", "PersistentVolumeClaim missing metadata.name"))
        else
          Ok(ClaimManifest(metadata.name.value, MapOrNone(metadata.labels), MapOrNone(annotations),
                           if spec.accessModes == [] then None else Some(spec.accessModes),
                           source, source, requests.value["storage"], storageClass,
                           NonEmptyOr(spec.volumeMode, spec.volumeModeCamel)))
  }

  /** `build_pvc_manifest_from_existing` as written: the annotations are
      stripped by the pop loop, the rest is built as above. */
  method BuildPvcManifestFromExisting(claim: Claim, branchId: Ulid, snapshotName: string) returns (r: Result<ClaimManifest>)
    ensures r == BuildPvcManifest(claim, branchId, snapshotName)
  {
    if claim.metadata.None? || claim.spec.None? {
      return Err(Raised("VelaKubernetesError", "PersistentVolumeClaim missing metadata/spec"));
    }
    var metadata := claim.metadata.value;
    var spec := claim.spec.value;
    var annotations := StripNoisyAnnotations(metadata.annotations);
    assert annotations == map k | k in metadata.annotations && k !in NoisyAnnotations :: metadata.annotations[k];
    var given := NonEmptyOr(spec.storageClassName, spec.storageClassNameCamel);
    var storageClass := if given.Some? && given.value != [] then given.value else D.BranchStorageClassName(branchId);
    var requests := ClaimRequests(spec);
    if requests.Err? {
      return Err(requests.failure);
    }
    if "storage" !in requests.value {
      return Err(Raised("VelaKubernetesError", "PersistentVolumeClaim missing storage request"));
    }
    var source := SnapshotRef("snapshot.storage.k8s.io", "VolumeSnapshot", snapshotName);
    if metadata.name.None? || metadata.name.value == [] {
      return Err(Raised("VelaKubernetesError", "PersistentVolumeClaim missing metadata.name"));
    }
    r := Ok(ClaimManifest(metadata.name.value, MapOrNone(metadata.labels), MapOrNone(annotations),
                          if spec.accessModes == [] then None else Some(spec.accessModes),
                          source, source, requests.value["storage"], storageClass,
                          NonEmptyOr(spec.volumeMode, spec.volumeModeCamel)));
  }

  /** The manifest is built exactly when the claim has metadata, a spec, a
      storage request and a non-empty name (a `None` requests object fails
      with AttributeError and is checked before the name). */
  lemma BuildPvcManifestSucceeds(claim: Claim, branchId: Ulid, snapshotName: string)
    ensures BuildPvcManifest(claim, branchId, snapshotName).Ok? <==>
              claim.metadata.Some? && claim.spec.Some? && ClaimRequests(claim.spec.value).Ok? &&
              "storage" in ClaimRequests(claim.spec.value).value &&
              claim.metadata.value.name.Some? && claim.metadata.value.name.value != []
    ensures claim.metadata.Some? && claim.spec.Some? && claim.spec.value.resources.Some? &&
            claim.spec.value.resources.value.requests.None? ==>
              BuildPvcManifest(claim, branchId, snapshotName) ==
              Err(Raised("AttributeError", "'NoneType' object has no attribute 'get'"))
  {
  }

  /** A built manifest keeps the name, labels, access modes, storage
      request and volume mode of the claim, keeps every annotation except
      the noisy ones, restores from the named snapshot, and uses the claim's
      storage class or else the branch's own. */
  lemma BuildPvcManifestMeaning(claim: Claim, branchId: Ulid, snapshotName: string)
    requires BuildPvcManifest(claim, branchId, snapshotName).Ok?
    ensures var m := BuildPvcManifest(claim, branchId, snapshotName).value;
            var metadata := claim.metadata.value;
            var spec := claim.spec.value;
            Some(m.name) == metadata.name &&
            m.labels.GetOr(map[]) == metadata.labels && m.labels != Some(map[]) &&
            m.accessModes.GetOr([]) == spec.accessModes && m.accessModes != Some([]) &&
            m.storageRequest == ClaimRequests(spec).value["storage"] &&
            m.dataSource == m.dataSourceRef == SnapshotRef("snapshot.storage.k8s.io", "VolumeSnapshot", snapshotName) &&
            (forall k :: k in m.annotations.GetOr(map[]) <==> k in metadata.annotations && k !in NoisyAnnotations) &&
            (forall k :: k in m.annotations.GetOr(map[]) ==> m.annotations.GetOr(map[])[k] == metadata.annotations[k]) &&
            m.storageClassName != [] &&
            (m.storageClassName == D.BranchStorageClassName(branchId) ||
             Some(m.storageClassName) == spec.storageClassName || Some(m.storageClassName) == spec.storageClassNameCamel)
  {
  }

  /** The claim a manifest describes, read back. */
  function AsClaim(m: ClaimManifest): Claim {
    Claim(Some(ClaimMetadata(Some(m.name), m.labels.GetOr(map[]), m.annotations.GetOr(map[]))),
          Some(ClaimSpec(m.accessModes.GetOr([]), Some(m.storageClassName), None,
                         Some(ClaimResources(Some(map["storage" := m.storageRequest]))), m.volumeMode, m.volumeMode)))
  }

  /** Rebuilding a rebuilt manifest changes only the snapshot it restores
      from. */
  lemma RebuildChangesOnlySnapshot(claim: Claim, branchId: Ulid, first: string, second: string)
    requires BuildPvcManifest(claim, branchId, first).Ok?
    ensures var m := BuildPvcManifest(claim, branchId, first).value;
            var source := SnapshotRef("snapshot.storage.k8s.io", "VolumeSnapshot", second);
            BuildPvcManifest(AsClaim(m), branchId, second) == Ok(m.(dataSource := source, dataSourceRef := source))
  {
    var m := BuildPvcManifest(claim, branchId, first).value;
    var annotations := m.annotations.GetOr(map[]);
    assert (map k | k in annotations && k !in NoisyAnnotations :: annotations[k]) == annotations;
  }
}
