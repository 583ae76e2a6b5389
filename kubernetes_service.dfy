/** The legacy namespace health check: the pods of a namespace are reduced
    to one status per pod and an overall status. */
module KubernetesService {
  import opened Common

  /** The members of a container status that are reported. */
  datatype ServiceContainer = ServiceContainer(name: Option<string>, ready: bool, restartCount: Option<int>)

  /** The members of a listed pod that are read. */
  datatype ServicePod = ServicePod(name: Option<string>, phase: Option<string>,
                                   containerStatuses: Option<seq<ServiceContainer>>)

  /** The pod listing: the pods, or the API error it failed with. */
  datatype PodListing = Listed(items: seq<ServicePod>) | ApiError(message: string)

  /** One entry of `pods` in the report; `containers` is set only for a
      running pod. */
  datatype PodReport = PodReport(name: Option<string>, status: string, containers: Option<seq<ServiceContainer>>)

  datatype NamespaceReport = NamespaceReport(allRunning: bool, status: string, pods: seq<PodReport>, message: string)

  /** The report of one pod. A pod in phase Running is "running" when all of
      its containers are ready and "pending" otherwise; any other phase is
      reported lower-cased; a pod without a phase fails like `None.lower()`. */
  function PodReportOf(p: ServicePod): (r: Result<PodReport>)
    ensures r.Err? <==> p.phase.None?
    ensures r.Ok? ==> r.value.name == p.name
    ensures p.phase == Some("Running") ==>
              r.Ok? && (r.value.status == "running" <==>
                        forall c :: c in p.containerStatuses.GetOr([]) ==> c.ready) &&
              (r.value.status == "running" || r.value.status == "pending") &&
              r.value.containers == Some(p.containerStatuses.GetOr([]))
    ensures p.phase.Some? && p.phase != Some("Running") ==>
              r == Ok(PodReport(p.name, Lower(p.phase.value), None))
  {
    if p.phase == Some("Running") then
      var containers := p.containerStatuses.GetOr([]);
      var ready := forall c :: c in containers ==> c.ready;
      Ok(PodReport(p.name, if ready then "running" else "pending", Some(containers)))
    else if p.phase.None? then Err(Raised("AttributeError", "'NoneType' object has no attribute 'lower'"))
    else Ok(PodReport(p.name, Lower(p.phase.value), None))
  }

  /** The reports of the pods, in order; the first pod that fails fails the
      check. */
  function PodReports(pods: seq<ServicePod>): Result<seq<PodReport>>
    decreases |pods|
  {
    if pods == [] then Ok([])
    else
      match PodReports(pods[..|pods| - 1])
      case Err(e) => Err(e)
      case Ok(rs) =>
        match PodReportOf(pods[|pods| - 1])
        case Err(e) => Err(e)
        case Ok(pr) => Ok(rs + [pr])
  }

  predicate AllRunning(reports: seq<PodReport>) {
    forall i :: 0 <= i < |reports| ==> reports[i].status == "running"
  }

  lemma AllRunningAppend(reports: seq<PodReport>, last: PodReport)
    ensures AllRunning(reports + [last]) <==> AllRunning(reports) && last.status == "running"
  {
    assert forall i :: 0 <= i < |reports| ==> (reports + [last])[i] == reports[i];
    assert (reports + [last])[|reports|] == last;
  }

  predicate AnyWithStatus(reports: seq<PodReport>, status: string) {
    exists i :: 0 <= i < |reports| && reports[i].status == status
  }

  /** The overall status: running, else failed, else pending, else unknown. */
  function OverallStatus(allRunning: bool, reports: seq<PodReport>): string {
    if allRunning then "running"
    else if AnyWithStatus(reports, "failed") then "failed"
    else if AnyWithStatus(reports, "pending") then "pending"
    else "unknown"
  }

  /** `check_namespace_status`. */
  function NamespaceStatus(namespace: string, listing: PodListing): Result<NamespaceReport> {
    match listing
    case ApiError(m) => Ok(NamespaceReport(false, "error", [], "Error checking namespace status: " + m))
    case Listed(items) =>
      if items == [] then Ok(NamespaceReport(false, "pending", [], "No pods found in namespace"))
      else
        match PodReports(items)
        case Err(e) => Err(e)
        case Ok(rs) =>
          var status := OverallStatus(AllRunning(rs), rs);
          Ok(NamespaceReport(AllRunning(rs), status, rs, "Namespace " + namespace + " status: " + status))
  }

  /** There is one report per pod, in order, for the pod of that position. */
  lemma {:induction false} PodReportsMeaning(pods: seq<ServicePod>)
    ensures PodReports(pods).Ok? <==> forall i :: 0 <= i < |pods| ==> pods[i].phase.Some?
    ensures PodReports(pods).Ok? ==>
              |PodReports(pods).value| == |pods| &&
              forall i :: 0 <= i < |pods| ==> Ok(PodReports(pods).value[i]) == PodReportOf(pods[i])
  {
    if pods != [] {
      var init := pods[..|pods| - 1];
      PodReportsMeaning(init);
      assert forall i :: 0 <= i < |init| ==> init[i] == pods[i];
    }
  }

  /** An empty namespace is pending; a failed listing is an error with no
      pods; otherwise all-running holds exactly when every pod is running,
      and the overall status is running, else failed if a pod failed, else
      pending if a pod is pending, else unknown. */
  lemma NamespaceStatusMeaning(namespace: string, listing: PodListing)
    ensures listing == Listed([]) ==>
              NamespaceStatus(namespace, listing) == Ok(NamespaceReport(false, "pending", [], "No pods found in namespace"))
    ensures listing.ApiError? ==>
              NamespaceStatus(namespace, listing).Ok? &&
              NamespaceStatus(namespace, listing).value.status == "error" &&
              !NamespaceStatus(namespace, listing).value.allRunning &&
              NamespaceStatus(namespace, listing).value.pods == []
    ensures listing.Listed? && listing.items != [] && NamespaceStatus(namespace, listing).Ok? ==>
              var r := NamespaceStatus(namespace, listing).value;
              |r.pods| == |listing.items| &&
              (r.allRunning <==> forall i :: 0 <= i < |r.pods| ==> r.pods[i].status == "running") &&
              (r.status == "running" <==> r.allRunning) &&
              (r.status == "failed" <==> !r.allRunning && exists i :: 0 <= i < |r.pods| && r.pods[i].status == "failed") &&
              (r.status == "pending" <==>
                 !r.allRunning && (forall i :: 0 <= i < |r.pods| ==> r.pods[i].status != "failed") &&
                 exists i :: 0 <= i < |r.pods| && r.pods[i].status == "pending")
  {
    if listing.Listed? && listing.items != [] && NamespaceStatus(namespace, listing).Ok? {
      ListedStatusMeaning(namespace, listing.items);
    }
  }

  lemma ListedStatusMeaning(namespace: string, items: seq<ServicePod>)
    requires items != [] && NamespaceStatus(namespace, Listed(items)).Ok?
    ensures var r := NamespaceStatus(namespace, Listed(items)).value;
            |r.pods| == |items| &&
            (r.allRunning <==> forall i :: 0 <= i < |r.pods| ==> r.pods[i].status == "running") &&
            (r.status == "running" <==> r.allRunning) &&
            (r.status == "failed" <==> !r.allRunning && exists i :: 0 <= i < |r.pods| && r.pods[i].status == "failed") &&
            (r.status == "pending" <==>
               !r.allRunning && (forall i :: 0 <= i < |r.pods| ==> r.pods[i].status != "failed") &&
               exists i :: 0 <= i < |r.pods| && r.pods[i].status == "pending")
  {
    PodReportsMeaning(items);
    var rs := PodReports(items).value;
    assert NamespaceStatus(namespace, Listed(items)).value.pods == rs;
    assert NamespaceStatus(namespace, Listed(items)).value.allRunning == AllRunning(rs);
    assert NamespaceStatus(namespace, Listed(items)).value.status == OverallStatus(AllRunning(rs), rs);
  }

  /** The loop of the check: it collects the pod reports and clears the
      all-running flag at each pod that is not running. */
  method CollectPodReports(pods: seq<ServicePod>) returns (r: Result<seq<PodReport>>, allRunning: bool)
    ensures r == PodReports(pods)
    ensures r.Ok? ==> (allRunning <==> AllRunning(r.value))
  {
    allRunning := true;
    var podStatuses: seq<PodReport> := [];
    var i := 0;
    while i < |pods|
      invariant 0 <= i <= |pods|
      invariant PodReports(pods[..i]) == Ok(podStatuses)
      invariant allRunning <==> AllRunning(podStatuses)
    {
      var report := PodReportOf(pods[i]);
      assert PodReports(pods[..i + 1]) == if report.Err? then Err(report.failure) else Ok(podStatuses + [report.value]) by {
        assert pods[..i + 1][..i] == pods[..i];
      }
      if report.Err? {
        ReportErrPersists(pods, i + 1, report.failure);
        return Err(report.failure), allRunning;
      }
      if report.value.status != "running" {
        allRunning := false;
      }
      AllRunningAppend(podStatuses, report.value);
      podStatuses := podStatuses + [report.value];
      i := i + 1;
    }
    assert pods[..|pods|] == pods;
    r := Ok(podStatuses);
  }

  /** The check as written. */
  method CheckNamespaceStatus(namespace: string, listing: PodListing) returns (r: Result<NamespaceReport>)
    ensures r == NamespaceStatus(namespace, listing)
  {
    if listing.ApiError? {
      return Ok(NamespaceReport(false, "error", [], "Error checking namespace status: " + listing.message));
    }
    var pods := listing.items;
    if pods == [] {
      return Ok(NamespaceReport(false, "pending", [], "No pods found in namespace"));
    }
    var reports, allRunning := CollectPodReports(pods);
    if reports.Err? {
      return Err(reports.failure);
    }
    var status := OverallStatus(allRunning, reports.value);
    r := Ok(NamespaceReport(allRunning, status, reports.value, "Namespace " + namespace + " status: " + status));
  }

  /** A failing pod in a prefix fails the whole check. */
  lemma {:induction false} ReportErrPersists(pods: seq<ServicePod>, n: nat, e: Failure)
    requires n <= |pods|
    requires PodReports(pods[..n]) == Err(e)
    ensures PodReports(pods) == Err(e)
    decreases |pods| - n
  {
    if n < |pods| {
      assert pods[..n + 1][..n] == pods[..n];
      ReportErrPersists(pods, n + 1, e);
    } else {
      assert pods[..n] == pods;
    }
  }
}
