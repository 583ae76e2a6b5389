/** The pure parts of the PVC resize monitor: which service a PVC belongs
    to, the resize status a Kubernetes event announces, the event timestamp
    the branch records, and the retry policy of the event stream. */
module PvcResize {
  import opened Common
  import opened BranchModel
  import CV = ChartValues

  // ---------------------------------------------------------------------
  // resource_from_pvc_name

  /** The PVC suffixes the deployment gives the storage and database
      volumes. */
  const StoragePvcSuffix: string := "-storage-pvc"
  const DatabasePvcSuffix: string := "-db-pvc"

  /** `resource_from_pvc_name`: the service a PVC belongs to, by its name. */
  function ResourceFromPvcName(name: string): (r: Option<string>)
  {
    if EndsWith(name, "-storage-pvc") then Some("storage")
    else if EndsWith(name, "-pvc") then Some("database")
    else None
  }

  /** Every storage PVC name also ends in "-pvc": the storage test has to
      come first. */
  lemma StorageSuffixEndsInPvc(name: string)
    requires EndsWith(name, "-storage-pvc")
    ensures EndsWith(name, "-pvc")
  {
    assert name[|name| - 4..] == (name[|name| - 12..])[8..];
  }

  /** The mapping, case by case: "-storage-pvc" names are storage, other
      "-pvc" names are the database, and anything else belongs to no
      service. */
  lemma ResourceFromPvcNameMeaning(name: string)
    ensures ResourceFromPvcName(name) == Some("storage") <==> EndsWith(name, "-storage-pvc")
    ensures ResourceFromPvcName(name) == Some("database") <==>
              EndsWith(name, "-pvc") && !EndsWith(name, "-storage-pvc")
    ensures ResourceFromPvcName(name).None? <==> !EndsWith(name, "-pvc")
  {
    if EndsWith(name, "-storage-pvc") {
      StorageSuffixEndsInPvc(name);
    }
  }

  lemma EndsWithSuffix(stem: string, suffix: string)
    ensures EndsWith(stem + suffix, suffix)
  {
    assert (stem + suffix)[|stem + suffix| - |suffix|..] == suffix;
  }

  /** The deployment's storage volume belongs to storage. */
  lemma StoragePvcName(vmName: string)
    ensures ResourceFromPvcName(vmName + StoragePvcSuffix) == Some("storage")
  {
    EndsWithSuffix(vmName, StoragePvcSuffix);
  }

  /** The deployment's database volume belongs to the database. */
  lemma DatabasePvcName(vmName: string)
    ensures ResourceFromPvcName(vmName + DatabasePvcSuffix) == Some("database")
  {
    var db := vmName + DatabasePvcSuffix;
    assert db[|db| - 4..] == "-pvc";
    assert db[|db| - 7] == '-';
  }

  /** The autoscaler's block-data volume belongs to no service. */
  lemma AutoscalerPvcName(vmName: string)
    ensures ResourceFromPvcName(vmName + CV.AutoscalerPvcSuffix).None?
  {
    var data := vmName + CV.AutoscalerPvcSuffix;
    assert data[|data| - 1] == 'a';
  }

  // ---------------------------------------------------------------------
  // FAILURE_PATTERN

  /** `\w`, restricted to ASCII. */
  predicate IsWordChar(c: char) {
    IsLowerAscii(c) || IsUpperAscii(c) || IsDigit(c) || c == '_'
  }

  /** Position `i` starts a word (`\b` followed by `\w`). */
  predicate WordStartsAt(s: string, i: int) {
    0 <= i < |s| && IsWordChar(s[i]) && (i == 0 || !IsWordChar(s[i - 1]))
  }

  /** The word starting at `i` begins with one of the stems. */
  predicate StemAt(s: string, i: int, stems: seq<string>)
    requires 0 <= i <= |s|
  {
    exists k :: 0 <= k < |stems| && StartsWith(s[i..], stems[k])
  }

  const ResizeStems: seq<string> := ["resize", "resizing", "resized"]
  const FailureStems: seq<string> := ["fail", "failure", "failed", "failing", "error", "err"]

  /** `\b(resize|resizing|resized)\w*\b` at `i`, on lower-cased text. */
  predicate ResizeWordAt(s: string, i: int) {
    WordStartsAt(s, i) && StemAt(s, i, ResizeStems)
  }

  /** `\b(fail|failure|failed|failing|error|err)\w*\b` at `i`, on
      lower-cased text. */
  predicate FailureWordAt(s: string, i: int) {
    WordStartsAt(s, i) && StemAt(s, i, FailureStems)
  }

  /** `.*` between the two words: no line break between them. */
  predicate SameLine(s: string, i: int, j: int) {
    forall k :: Min(i, j) <= k < Max(i, j) && 0 <= k < |s| ==> s[k] != '\n'
  }

  /** `FAILURE_PATTERN.search(message)`: some line of the message, ignoring
      case, holds a resize word and a failure word, in either order. */
  predicate FailurePattern(message: string) {
    FailureMatch(Lower(message))
  }

  /** The search on lower-cased text. */
  predicate FailureMatch(t: string) {
    exists i, j | 0 <= i < |t| && 0 <= j < |t| :: ResizeWordAt(t, i) && FailureWordAt(t, j) && SameLine(t, i, j)
  }

  lemma LowerUpperChar(c: char)
    ensures LowerChar(UpperChar(c)) == LowerChar(c)
  {
  }

  /** The pattern ignores case. */
  lemma FailurePatternIgnoresCase(message: string)
    ensures FailurePattern(Upper(message)) == FailurePattern(message)
    ensures FailurePattern(Lower(message)) == FailurePattern(message)
  {
    forall i | 0 <= i < |message|
      ensures Lower(Upper(message))[i] == Lower(message)[i]
    {
      LowerUpperChar(message[i]);
    }
    assert Lower(Upper(message)) == Lower(message);
    LowerIdempotent(message);
  }

  /** A resize word and a failure word on one line match, whichever comes
      first. */
  lemma FailurePatternFromWords(message: string, i: int, j: int)
    requires ResizeWordAt(Lower(message), i) && FailureWordAt(Lower(message), j)
    requires SameLine(Lower(message), i, j)
    ensures FailurePattern(message)
  {
  }

  /** The words of "resize\nfailed" start at 0 and 7 only. */
  lemma WordsOfTwoLines(i: int)
    requires WordStartsAt("resize\nfailed", i)
    ensures i == 0 || i == 7
  {
  }

  /** A resize word begins with 'r'. */
  lemma ResizeWordLetter(s: string, i: int)
    requires ResizeWordAt(s, i)
    ensures s[i] == 'r'
  {
    var k :| 0 <= k < |ResizeStems| && StartsWith(s[i..], ResizeStems[k]);
    assert s[i..][0] == ResizeStems[k][0];
  }

  /** A failure word begins with 'f' or 'e'. */
  lemma FailureWordLetter(s: string, i: int)
    requires FailureWordAt(s, i)
    ensures s[i] == 'f' || s[i] == 'e'
  {
    var k :| 0 <= k < |FailureStems| && StartsWith(s[i..], FailureStems[k]);
    assert s[i..][0] == FailureStems[k][0];
  }

  /** The two words must share a line. */
  lemma FailurePatternNeedsOneLine()
    ensures !FailureMatch("resize\nfailed")
  {
    var t := "resize\nfailed";
    forall i, j | 0 <= i < |t| && 0 <= j < |t|
      ensures !(ResizeWordAt(t, i) && FailureWordAt(t, j) && SameLine(t, i, j))
    {
      NoMatchAcrossLines(i, j);
    }
  }

  /** In "resize\nfailed" the only resize word is at 0 and the only failure
      word at 7, and the line break lies between them. */
  lemma NoMatchAcrossLines(i: int, j: int)
    requires 0 <= i < 13 && 0 <= j < 13
    ensures !(ResizeWordAt("resize\nfailed", i) && FailureWordAt("resize\nfailed", j) && SameLine("resize\nfailed", i, j))
  {
    var t := "resize\nfailed";
    if ResizeWordAt(t, i) && FailureWordAt(t, j) {
      WordsOfTwoLines(i);
      WordsOfTwoLines(j);
      ResizeWordLetter(t, i);
      FailureWordLetter(t, j);
      assert i == 0 && j == 7;
      assert t[6] == '\n';
    }
  }

  /** A resize word and a failure word on one line are a match. */
  lemma MatchAt(t: string, i: int, j: int)
    requires 0 <= i < |t| && 0 <= j < |t|
    requires ResizeWordAt(t, i) && FailureWordAt(t, j) && SameLine(t, i, j)
    ensures FailureMatch(t)
  {
  }

  /** A resize word followed by a failure word matches. */
  lemma ResizeThenFailure()
    ensures FailureMatch("resize failed")
  {
    var u := "resize failed";
    assert StartsWith(u[0..], ResizeStems[0]);
    assert StartsWith(u[7..], FailureStems[2]);
    assert SameLine(u, 0, 7);
    MatchAt(u, 0, 7);
  }

  /** So does a failure word followed by a resize word. */
  lemma FailureThenResize()
    ensures FailureMatch("failed to resize volume")
  {
    var v := "failed to resize volume";
    assert StartsWith(v[0..], FailureStems[2]);
    assert FailureWordAt(v, 0);
    assert StartsWith(v[10..], ResizeStems[0]);
    assert WordStartsAt(v, 10);
    assert ResizeWordAt(v, 10);
    assert SameLine(v, 10, 0);
    MatchAt(v, 10, 0);
  }

  // ---------------------------------------------------------------------
  // derive_status

  predicate IsResizingReason(r: string) { r == "RESIZING" || r == "EXTERNALEXPANDING" }
  predicate IsPendingReason(r: string) { r == "FILESYSTEMRESIZEREQUIRED" }
  predicate IsCompletedReason(r: string) { r == "FILESYSTEMRESIZESUCCESSFUL" || r == "RESIZEFINISHED" }
  predicate IsFailedReason(r: string) { r == "VOLUMERESIZEFAILED" || r == "FILESYSTEMRESIZEFAILED" }

  /** One of the reasons the table maps. */
  predicate IsKnownReason(r: string) {
    IsResizingReason(r) || IsPendingReason(r) || IsCompletedReason(r) || IsFailedReason(r)
  }

  /** `x or ""` for an optional string. */
  function OrEmpty(x: Option<string>): string {
    if x.Some? then x.value else ""
  }

  /** A Warning event whose message reads like a failed resize. */
  predicate WarnsOfFailure(eventType: Option<string>, message: Option<string>) {
    Upper(OrEmpty(eventType)) == "WARNING" && FailurePattern(OrEmpty(message))
  }

  /** `derive_status`: the resize status an event announces, if any. */
  function DeriveStatus(reason: Option<string>, eventType: Option<string>, message: Option<string>): (r: Option<ResizeStatus>)
    ensures r != Some(Pending) && r != Some(ResizeNone)
  {
    var normalized := Upper(OrEmpty(reason));
    if IsResizingReason(normalized) then Some(ResizeInProgress)
    else if IsPendingReason(normalized) then Some(FilesystemResizePending)
    else if IsCompletedReason(normalized) then Some(Completed)
    else if IsFailedReason(normalized) then Some(Failed)
    else if WarnsOfFailure(eventType, message) then Some(Failed)
    else None
  }

  /** The reason table decides first, compared without regard to case; the
      message is read only for a reason outside the table, and then only a
      Warning whose message matches the failure pattern is FAILED. */
  lemma DeriveStatusMeaning(reason: Option<string>, eventType: Option<string>, message: Option<string>)
    ensures var up := Upper(OrEmpty(reason));
      var r := DeriveStatus(reason, eventType, message);
      (r == Some(ResizeInProgress) <==> IsResizingReason(up)) &&
      (r == Some(FilesystemResizePending) <==> IsPendingReason(up)) &&
      (r == Some(Completed) <==> IsCompletedReason(up)) &&
      (r == Some(Failed) <==> IsFailedReason(up) || (!IsKnownReason(up) && WarnsOfFailure(eventType, message))) &&
      (r.None? <==> !IsKnownReason(up) && !WarnsOfFailure(eventType, message))
  {
  }

  /** A known reason wins over the message, whatever the message says. */
  lemma ReasonTakesPrecedence(reason: string, eventType: Option<string>, message: Option<string>, message2: Option<string>)
    requires IsKnownReason(Upper(reason))
    ensures DeriveStatus(Some(reason), eventType, message) == DeriveStatus(Some(reason), None, message2)
  {
  }

  /** The reason is compared without regard to case. */
  lemma DeriveStatusIgnoresCase(reason: string, eventType: Option<string>, message: Option<string>)
    ensures DeriveStatus(Some(Lower(reason)), eventType, message) == DeriveStatus(Some(reason), eventType, message)
    ensures DeriveStatus(Some(reason), Some(Lower(OrEmpty(eventType))), message) == DeriveStatus(Some(reason), eventType, message)
  {
    UpperIgnoresCase(reason);
    UpperIgnoresCase(OrEmpty(eventType));
  }

  /** A Normal event without a known reason announces nothing. */
  lemma NormalEventWithoutReason(message: Option<string>)
    ensures DeriveStatus(None, Some("Normal"), message).None?
  {
    assert Upper("") == "";
    assert Upper("Normal") == "NORMAL";
  }

  // ---------------------------------------------------------------------
  // normalize_iso_timestamp

  /** `isoformat()` of a UTC instant without its "+00:00" offset; the
      calendar rendering is a library call. */
  type IsoRenderer = int -> string

  /** `s.replace("+00:00", "Z")`: left to right, without overlaps. */
  function ReplaceUtcOffset(s: string): (r: string)
  {
    if s == [] then []
    else if StartsWith(s, "+00:00") then "Z" + ReplaceUtcOffset(s[6..])
    else [s[0]] + ReplaceUtcOffset(s[1..])
  }

  predicate HasNoPlus(s: string) {
    forall i :: 0 <= i < |s| ==> s[i] != '+'
  }

  /** Replacing the offset of a rendering that has no '+' of its own only
      turns the trailing "+00:00" into "Z". */
  lemma {:induction false} ReplaceTrailingOffset(s: string)
    requires HasNoPlus(s)
    ensures ReplaceUtcOffset(s + "+00:00") == s + "Z"
  {
    if s == [] {
      assert ReplaceUtcOffset("+00:00"[6..]) == [];
    } else {
      assert (s + "+00:00")[0] == s[0];
      assert (s + "+00:00")[1..] == s[1..] + "+00:00";
      ReplaceTrailingOffset(s[1..]);
    }
  }

  /** `normalize_iso_timestamp`: `now` stands in for a missing value, a
      naive value is UTC, and the offset is written "Z". */
  function NormalizeIsoTimestamp(value: Option<IsoDatetime>, now: int, render: IsoRenderer): string {
    var instant := if value.None? then now else UtcSeconds(value.value);
    ReplaceUtcOffset(render(instant) + "+00:00")
  }

  /** The instant is rendered with a trailing "Z" in place of "+00:00". */
  lemma NormalizeIsoTimestampEndsInZ(value: Option<IsoDatetime>, now: int, render: IsoRenderer)
    requires HasNoPlus(render(if value.None? then now else UtcSeconds(value.value)))
    ensures NormalizeIsoTimestamp(value, now, render) == render(if value.None? then now else UtcSeconds(value.value)) + "Z"
    ensures EndsWith(NormalizeIsoTimestamp(value, now, render), "Z")
  {
    var instant := if value.None? then now else UtcSeconds(value.value);
    ReplaceTrailingOffset(render(instant));
    EndsWithSuffix(render(instant), "Z");
  }

  /** No value means the current instant; a naive value means the same as
      the value at offset zero; equal instants give equal text. */
  lemma NormalizeIsoTimestampInstants(now: int, local: int, d: IsoDatetime, e: IsoDatetime, render: IsoRenderer)
    ensures NormalizeIsoTimestamp(None, now, render) == NormalizeIsoTimestamp(Some(IsoDatetime(now, Some(0))), now, render)
    ensures NormalizeIsoTimestamp(Some(IsoDatetime(local, None)), now, render) ==
            NormalizeIsoTimestamp(Some(IsoDatetime(local, Some(0))), now, render)
    ensures UtcSeconds(d) == UtcSeconds(e) ==>
              NormalizeIsoTimestamp(Some(d), now, render) == NormalizeIsoTimestamp(Some(e), now, render)
  {
  }

  /** The recorded text reads back as the same instant when the resize
      aggregation parses it, given an ISO parser that inverts the
      renderer. */
  lemma NormalizedTimestampRoundTrip(value: Option<IsoDatetime>, now: int, render: IsoRenderer, parse: IsoParser)
    requires var instant := if value.None? then now else UtcSeconds(value.value);
      HasNoPlus(render(instant)) && render(instant) != "" &&
      parse(render(instant) + "+00:00") == Some(IsoDatetime(instant, Some(0)))
    ensures TimestampAsDatetime(NormalizeIsoTimestamp(value, now, render), parse) ==
            (if value.None? then now else UtcSeconds(value.value))
  {
    var instant := if value.None? then now else UtcSeconds(value.value);
    NormalizeIsoTimestampEndsInZ(value, now, render);
    ZuluIsUtc(render(instant), parse);
    var u := render(instant) + "+00:00";
    assert u[|u| - 1] == '0';
  }

  // ---------------------------------------------------------------------
  // _handle_stream_error

  const InitialBackoffSeconds: int := 5
  const MaxBackoffSeconds: int := 60

  /** What ended a watch: an API error with its HTTP status, or a client
      (connection) error. */
  datatype StreamError = ApiError(status: int) | ClientError

  /** The retry decision: the resource version to resume from, the next
      backoff and how long the handler slept before returning. */
  datatype Retry = Retry(resourceVersion: Option<string>, backoff: int, slept: int)

  /** `_handle_stream_error`. */
  function HandleStreamError(e: StreamError, resourceVersion: Option<string>, backoff: int): (r: Retry)
  {
    if e.ApiError? && e.status == 410 then Retry(Some("0"), InitialBackoffSeconds, 0)
    else Retry(resourceVersion, Min(backoff * 2, MaxBackoffSeconds), backoff)
  }

  /** An expired resource version resyncs from "0" at once with the initial
      backoff; any other error keeps the resource version, sleeps for the
      current backoff and doubles it up to the cap, never going below it. */
  lemma HandleStreamErrorMeaning(e: StreamError, resourceVersion: Option<string>, backoff: int)
    requires 0 < backoff <= MaxBackoffSeconds
    ensures var r := HandleStreamError(e, resourceVersion, backoff);
      0 < r.backoff <= MaxBackoffSeconds &&
      (e == ApiError(410) ==> r == Retry(Some("0"), 5, 0)) &&
      (e != ApiError(410) ==>
         r.resourceVersion == resourceVersion && r.slept == backoff && backoff <= r.backoff &&
         (r.backoff == MaxBackoffSeconds || r.backoff == 2 * backoff))
  {
  }

  /** The backoff after a run of errors. */
  function BackoffAfter(errors: seq<StreamError>, backoff: int): int {
    if errors == [] then backoff
    else BackoffAfter(errors[1..], HandleStreamError(errors[0], None, backoff).backoff)
  }

  function Pow2(n: nat): (p: nat)
    ensures p >= 1
  {
    if n == 0 then 1 else 2 * Pow2(n - 1)
  }

  lemma MinDouble(b: int, n: nat)
    requires b > 0
    ensures Min(Min(b * 2, MaxBackoffSeconds) * Pow2(n), MaxBackoffSeconds) == Min(b * Pow2(n + 1), MaxBackoffSeconds)
  {
    if b * 2 > MaxBackoffSeconds {
      assert Min(b * 2, MaxBackoffSeconds) * Pow2(n) >= MaxBackoffSeconds;
      assert b * Pow2(n + 1) == b * 2 * Pow2(n);
      assert b * 2 * Pow2(n) >= b * 2;
    } else {
      assert b * Pow2(n + 1) == b * 2 * Pow2(n);
    }
  }

  /** Without a 410 the backoff doubles per error up to the cap. */
  lemma {:induction false} BackoffGrowth(errors: seq<StreamError>, backoff: int)
    requires 0 < backoff <= MaxBackoffSeconds
    requires forall i :: 0 <= i < |errors| ==> errors[i] != ApiError(410)
    ensures BackoffAfter(errors, backoff) == Min(backoff * Pow2(|errors|), MaxBackoffSeconds)
  {
    if errors != [] {
      var next := Min(backoff * 2, MaxBackoffSeconds);
      BackoffGrowth(errors[1..], next);
      MinDouble(backoff, |errors| - 1);
    }
  }

  /** From the initial backoff, four failed retries reach the cap. */
  lemma BackoffReachesCap(errors: seq<StreamError>)
    requires |errors| >= 4
    requires forall i :: 0 <= i < |errors| ==> errors[i] != ApiError(410)
    ensures BackoffAfter(errors, InitialBackoffSeconds) == MaxBackoffSeconds
  {
    BackoffGrowth(errors, InitialBackoffSeconds);
    PowGrows(|errors|);
  }

  lemma {:induction false} PowGrows(n: nat)
    requires n >= 4
    ensures Pow2(n) >= 16
  {
    if n > 4 {
      PowGrows(n - 1);
    }
  }
}
