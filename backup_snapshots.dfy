/** The pure parts of branch volume snapshots: reading the snapshot UUID
    out of a CSI snapshot handle, naming VolumeSnapshots, the used size of a
    branch's backups as reported by the storage backend, and what deleting a
    snapshot removes. */
module BackupSnapshots {
  import opened Common

  // ------------------------------------------------------- snapshot handle

  predicate IsHexDigit(c: char) {
    IsDigit(c) || 'a' <= c <= 'f' || 'A' <= c <= 'F'
  }

  predicate IsLowerHex(c: char) {
    IsDigit(c) || 'a' <= c <= 'f'
  }

  /** The positions of the hyphens in a written UUID (8-4-4-4-12). */
  predicate IsUuidHyphen(i: int) {
    i == 8 || i == 13 || i == 18 || i == 23
  }

  /** Text matching `[0-9a-fA-F]{8}-[0-9a-fA-F]{4}-[0-9a-fA-F]{4}-[0-9a-fA-F]{4}-[0-9a-fA-F]{12}`. */
  predicate IsUuidText(t: string) {
    |t| == 36 && forall i :: 0 <= i < 36 ==> if IsUuidHyphen(i) then t[i] == '-' else IsHexDigit(t[i])
  }

  /** A UUID value, held as its 32 lower-case hex digits. */
  predicate IsUuid(u: string) {
    |u| == 32 && forall i :: 0 <= i < 32 ==> IsLowerHex(u[i])
  }

  /** The position in the written form of the `j`-th hex digit. */
  function TextIndex(j: int): int {
    j + (if j >= 8 then 1 else 0) + (if j >= 12 then 1 else 0) + (if j >= 16 then 1 else 0) + (if j >= 20 then 1 else 0)
  }

  /** The hex digit written at position `i` of the written form. */
  function HexIndex(i: int): int {
    i - (if i > 8 then 1 else 0) - (if i > 13 then 1 else 0) - (if i > 18 then 1 else 0) - (if i > 23 then 1 else 0)
  }

  /** `UUID(text)` for text of the written form: the hex digits, in lower case. */
  function UuidOfText(t: string): (u: string)
    requires IsUuidText(t)
    ensures IsUuid(u)
  {
    seq(32, j requires 0 <= j < 32 => LowerChar(t[TextIndex(j)]))
  }

  /** `str(uuid)`: the canonical written form. */
  function UuidText(u: string): (t: string)
    requires IsUuid(u)
    ensures IsUuidText(t)
  {
    seq(36, i requires 0 <= i < 36 => if IsUuidHyphen(i) then '-' else u[HexIndex(i)])
  }

  /** A handle that fully matches `<prefix>:<uuid>`, the prefix being a
      non-empty run without ':'. */
  predicate IsSnapshotHandle(handle: string) {
    ':' in handle && 0 < IndexOf(handle, ':') && IsUuidText(handle[IndexOf(handle, ':') + 1..])
  }

  /** `parse_snapshot_id`. */
  function ParseSnapshotId(handle: string): (r: Result<string>)
    ensures r.Ok? <==> IsSnapshotHandle(handle)
    ensures r.Ok? ==> IsUuid(r.value)
    ensures r.Err? ==> r.failure == Raised("ValueError", "invalid snapshotHandle")
  {
    if IsSnapshotHandle(handle) then Ok(UuidOfText(handle[IndexOf(handle, ':') + 1..]))
    else Err(Raised("ValueError", "invalid snapshotHandle"))
  }

  /** The handle a CSI driver writes for a UUID under any colon-free
      prefix parses back to that UUID. */
  lemma ParseSnapshotIdRoundTrip(prefix: string, u: string)
    requires prefix != [] && ':' !in prefix
    requires IsUuid(u)
    ensures ParseSnapshotId(prefix + ":" + UuidText(u)) == Ok(u)
  {
    var handle := prefix + ":" + UuidText(u);
    assert handle[|prefix|] == ':' && handle[..|prefix|] == prefix;
    assert IndexOf(handle, ':') == |prefix|;
    var t := UuidText(u);
    assert handle[|prefix| + 1..] == t;
    assert forall j :: 0 <= j < 32 ==> UuidOfText(t)[j] == u[j] by {
      forall j | 0 <= j < 32 ensures UuidOfText(t)[j] == u[j] {
        assert !IsUuidHyphen(TextIndex(j)) && HexIndex(TextIndex(j)) == j;
        assert IsLowerHex(u[j]);
      }
    }
    assert UuidOfText(t) == u;
  }

  /** A handle whose part after the first ':' is not a written UUID, or that
      has no prefix, does not parse. */
  lemma ParseSnapshotIdRejects(handle: string)
    requires ':' !in handle || handle[0] == ':'
    ensures ParseSnapshotId(handle).Err?
  {
  }

  // ------------------------------------------------------ snapshot names

  /** The characters a sanitised label may hold: `[a-z0-9-]`. */
  predicate IsLabelChar(c: char) {
    IsLowerAscii(c) || IsDigit(c) || c == '-'
  }

  /** One character of `re.sub(r"[^a-z0-9-]", "-", label.lower())`. */
  function CleanChar(c: char): (r: char)
    ensures IsLabelChar(r)
    ensures IsLabelChar(c) ==> r == c
  {
    var l := LowerChar(c);
    if IsLabelChar(l) then l else '-'
  }

  function CleanLabel(s: string): (r: string)
    ensures |r| == |s|
    ensures forall i :: 0 <= i < |s| ==> r[i] == CleanChar(s[i])
  {
    seq(|s|, i requires 0 <= i < |s| => CleanChar(s[i]))
  }

  predicate NoDoubleDash(s: string) {
    forall i :: 0 <= i < |s| - 1 ==> !(s[i] == '-' && s[i + 1] == '-')
  }

  predicate AllLabelChars(s: string) {
    forall i :: 0 <= i < |s| ==> IsLabelChar(s[i])
  }

  /** `re.sub(r"-+", "-", s)`: every run of '-' becomes one. */
  function CollapseDashes(s: string): (r: string)
    ensures NoDoubleDash(r)
    ensures |r| <= |s|
    ensures s != [] ==> r != [] && r[0] == s[0] && r[|r| - 1] == s[|s| - 1]
    ensures AllLabelChars(s) ==> AllLabelChars(r)
    ensures NoDoubleDash(s) ==> r == s
    decreases |s|
  {
    if |s| <= 1 then s
    else if s[0] == '-' && s[1] == '-' then CollapseDashes(s[1..])
    else [s[0]] + CollapseDashes(s[1..])
  }

  /** `s.lstrip("-")`. */
  function LStripDash(s: string): (r: string)
    ensures EndsWith(s, r)
    ensures r != [] ==> r[0] != '-'
    ensures s != [] && s[0] != '-' ==> r == s
    decreases |s|
  {
    if s != [] && s[0] == '-' then LStripDash(s[1..]) else s
  }

  /** `s.strip("-")`. */
  function StripDashes(s: string): (r: string)
    ensures r != [] ==> r[0] != '-' && r[|r| - 1] != '-'
    ensures AllLabelChars(s) ==> AllLabelChars(r)
    ensures NoDoubleDash(s) ==> NoDoubleDash(r)
    ensures s != [] && s[0] != '-' && s[|s| - 1] != '-' ==> r == s
  {
    var left := LStripDash(s);
    var r := RStripChar(left, '-');
    PrefixOfSuffixKeepsLabelShape(s, left, r);
    if s != [] && s[0] != '-' && s[|s| - 1] != '-' then
      StripDashesKeepsClean(s, left, r);
      r
    else r
  }

  /** What `strip` leaves, a prefix of a suffix, is a slice of its argument,
      so it keeps the label characters and the absence of "--". */
  lemma PrefixOfSuffixKeepsLabelShape(s: string, left: string, r: string)
    requires EndsWith(s, left) && StartsWith(left, r)
    ensures AllLabelChars(s) ==> AllLabelChars(r)
    ensures NoDoubleDash(s) ==> NoDoubleDash(r)
  {
    var from := |s| - |left|;
    SliceOfSuffix(s, from, |r|);
    SliceKeepsLabelShape(s, from, from + |r|);
  }

  lemma StripDashesKeepsClean(s: string, left: string, r: string)
    requires left == LStripDash(s) && r == RStripChar(left, '-')
    requires s != [] && s[0] != '-' && s[|s| - 1] != '-'
    ensures r == s
  {
    assert left == s;
    assert |r| == |s| && r == s[..|s|];
  }

  lemma SliceOfSuffix(s: string, from: int, n: int)
    requires 0 <= from <= |s| && 0 <= n <= |s| - from
    ensures s[from..][..n] == s[from..from + n]
  {
  }

  /** A slice keeps the label characters and the absence of "--". */
  lemma SliceKeepsLabelShape(s: string, from: int, to: int)
    requires 0 <= from <= to <= |s|
    ensures AllLabelChars(s) ==> AllLabelChars(s[from..to])
    ensures NoDoubleDash(s) ==> NoDoubleDash(s[from..to])
  {
    assert forall i :: 0 <= i < to - from ==> s[from..to][i] == s[from + i];
  }

  /** A label Kubernetes accepts inside a name: only `[a-z0-9-]`, no "--",
      no leading or trailing '-', and not empty. */
  predicate IsSanitizedLabel(s: string) {
    s != [] && AllLabelChars(s) && NoDoubleDash(s) && s[0] != '-' && s[|s| - 1] != '-'
  }

  /** `_sanitize_label`. */
  function SanitizeLabel(raw: string): (r: string)
    ensures IsSanitizedLabel(r)
  {
    var cleaned := StripDashes(CollapseDashes(CleanLabel(raw)));
    if cleaned == [] then "backup" else cleaned
  }

  /** A label is sanitised to itself exactly when it already has the
      sanitised shape; so sanitising twice changes nothing. */
  lemma SanitizeLabelFixedPoints(raw: string)
    ensures SanitizeLabel(raw) == raw <==> IsSanitizedLabel(raw)
    ensures SanitizeLabel(SanitizeLabel(raw)) == SanitizeLabel(raw)
  {
    SanitizedIsFixed(raw);
    SanitizedIsFixed(SanitizeLabel(raw));
  }

  lemma SanitizedIsFixed(s: string)
    ensures IsSanitizedLabel(s) ==> SanitizeLabel(s) == s
  {
    if IsSanitizedLabel(s) {
      assert CleanLabel(s) == s;
    }
  }

  /** Upper-case letters are folded and every other character outside
      `[a-z0-9-]` becomes a separator; a label with no letter or digit
      falls back to "backup". */
  lemma SanitizeLabelExamples()
    ensures SanitizeLabel("") == "backup"
    ensures SanitizeLabel("--") == "backup"
  {
    assert CleanLabel("--") == "--";
    assert CollapseDashes("--") == "-";
  }

  const K8sNameMaxLength: int := 63

  /** `_build_snapshot_name` with the backup id already rendered as
      `backupComponent`. (Its second "backup" fallback cannot fire: the
      sanitised label is never empty.) */
  function SnapshotName(raw: string, backupComponent: string): (r: string)
    ensures |r| <= K8sNameMaxLength
  {
    var labelComponent := SanitizeLabel(raw);
    var available := K8sNameMaxLength - |backupComponent| - 1;
    if available < 1 then Take(backupComponent, K8sNameMaxLength as nat)
    else Take(labelComponent, available as nat) + "-" + backupComponent
  }

  /** Normally the name is the label cut to the room the id leaves, "-"
      and the id, and the label keeps at least one character; an id that
      leaves no room is cut to 63 characters alone. */
  lemma SnapshotNameShape(raw: string, backupComponent: string)
    ensures |backupComponent| <= K8sNameMaxLength - 2 ==>
              var r := SnapshotName(raw, backupComponent);
              var labelPart := Take(SanitizeLabel(raw), (K8sNameMaxLength - |backupComponent| - 1) as nat);
              r == labelPart + "-" + backupComponent && labelPart != [] && StartsWith(SanitizeLabel(raw), labelPart)
    ensures |backupComponent| > K8sNameMaxLength - 2 ==>
              SnapshotName(raw, backupComponent) == Take(backupComponent, K8sNameMaxLength as nat)
  {
  }

  /** `_build_snapshot_name`: the backup id is a ULID written in lower case. */
  function BuildSnapshotName(raw: string, backupId: Ulid): (r: string)
    ensures |r| <= K8sNameMaxLength
  {
    SnapshotName(raw, Lower(backupId))
  }

  /** For a ULID the short-name branch never fires: the name is at most 36
      label characters, "-" and the lower-cased id, from which the id reads
      back. */
  lemma BuildSnapshotNameHoldsId(raw: string, backupId: Ulid)
    ensures var r := BuildSnapshotName(raw, backupId);
            r == Take(SanitizeLabel(raw), 36) + "-" + Lower(backupId) &&
            |r| > 27 && Upper(r[|r| - 26..]) == backupId
  {
    var r := BuildSnapshotName(raw, backupId);
    assert r[|r| - 26..] == Lower(backupId);
    UpperLowerUlid(backupId);
  }

  // ------------------------------------------------------------ used size

  /** A snapshot as the storage backend lists it. */
  datatype SimplyblockSnapshot = SimplyblockSnapshot(id: string, usedSize: int)

  /** The `snapshot_uuid`s the backup entries carry, in order. */
  function PresentUuids(entries: seq<Option<string>>): (r: seq<string>)
    ensures |r| <= |entries|
    ensures forall u :: u in r <==> Some(u) in entries
  {
    if entries == [] then []
    else (if entries[0].Some? then [entries[0].value] else []) + PresentUuids(entries[1..])
  }

  /** Every text converted by `parseUuid` (Python's `UUID`), or `None` when
      one does not convert. A converted UUID is held as `str()` writes it, so
      the ids compare and sort as their text does. */
  function ParseAll(values: seq<string>, parseUuid: string -> Option<string>): (r: Option<seq<string>>)
    ensures r.Some? ==> |r.value| == |values|
  {
    if values == [] then Some([])
    else if parseUuid(values[0]).None? then None
    else
      var rest := ParseAll(values[1..], parseUuid);
      if rest.None? then None else Some([parseUuid(values[0]).value] + rest.value)
  }

  /** The conversion fails exactly when one text does not convert, and
      otherwise converts each text in place. */
  lemma {:induction false} ParseAllMeaning(values: seq<string>, parseUuid: string -> Option<string>)
    ensures ParseAll(values, parseUuid).None? <==> exists i :: 0 <= i < |values| && parseUuid(values[i]).None?
    ensures ParseAll(values, parseUuid).Some? ==>
              forall i :: 0 <= i < |values| ==> parseUuid(values[i]) == Some(ParseAll(values, parseUuid).value[i])
  {
    if values != [] {
      ParseAllMeaning(values[1..], parseUuid);
      assert forall i :: 0 <= i < |values| - 1 ==> values[1..][i] == values[i + 1];
      if parseUuid(values[0]).Some? && ParseAll(values[1..], parseUuid).None? {
        var i :| 0 <= i < |values[1..]| && parseUuid(values[1..][i]).None?;
        assert parseUuid(values[i + 1]).None?;
      }
    }
  }

  /** `{snapshot.id: snapshot.used_size for snapshot in snapshots}[id]`: the
      last listed snapshot with that id wins. */
  function UsedSizeById(snapshots: seq<SimplyblockSnapshot>, id: string): (r: Option<int>)
    ensures r.None? <==> forall i :: 0 <= i < |snapshots| ==> snapshots[i].id != id
    ensures r.Some? ==> exists i :: 0 <= i < |snapshots| && snapshots[i] == SimplyblockSnapshot(id, r.value) &&
                                    forall j :: i < j < |snapshots| ==> snapshots[j].id != id
    decreases |snapshots|
  {
    if snapshots == [] then None
    else if snapshots[|snapshots| - 1].id == id then Some(snapshots[|snapshots| - 1].usedSize)
    else UsedSizeById(snapshots[..|snapshots| - 1], id)
  }

  predicate AllListed(ids: seq<string>, snapshots: seq<SimplyblockSnapshot>) {
    forall i :: 0 <= i < |ids| ==> UsedSizeById(snapshots, ids[i]).Some?
  }

  /** `sorted(set(ids) - set(used_size_by_id), key=str)`: the ids the
      listing lacks, each once, in ascending order. */
  function MissingIds(ids: seq<string>, snapshots: seq<SimplyblockSnapshot>): seq<string> {
    SortNames(Filter(ids, (id: string) => UsedSizeById(snapshots, id).None?))
  }

  /** The missing ids are exactly the ids no listed snapshot has, each once
      and in ascending order. */
  lemma MissingIdsMeaning(ids: seq<string>, snapshots: seq<SimplyblockSnapshot>)
    ensures forall id :: id in MissingIds(ids, snapshots) <==> id in ids && UsedSizeById(snapshots, id).None?
    ensures StrictlySorted(MissingIds(ids, snapshots))
    ensures MissingIds(ids, snapshots) == [] <==> AllListed(ids, snapshots)
  {
    var p := (id: string) => UsedSizeById(snapshots, id).None?;
    FilterMembershipAll(ids, p);
    SortNamesSorted(Filter(ids, p));
    if !AllListed(ids, snapshots) {
      var i :| 0 <= i < |ids| && UsedSizeById(snapshots, ids[i]).None?;
      assert ids[i] in MissingIds(ids, snapshots);
    }
  }

  /** The used sizes of `ids`, one term per id. */
  function SumSizes(ids: seq<string>, snapshots: seq<SimplyblockSnapshot>): int
    requires AllListed(ids, snapshots)
  {
    if ids == [] then 0 else UsedSizeById(snapshots, ids[0]).value + SumSizes(ids[1..], snapshots)
  }

  /** `branch_snapshots_used_size`, with `parseUuid` for Python's `UUID` and
      `listed` the backend's snapshot listing (`None` when the request
      failed). */
  function BranchSnapshotsUsedSize(entries: seq<Option<string>>, parseUuid: string -> Option<string>,
                                    listed: Option<seq<SimplyblockSnapshot>>): (r: Result<int>)
    ensures PresentUuids(entries) == [] ==> r == Ok(0)
    ensures r.Err? ==> r.failure.Raised? && r.failure.kind == "VelaSimplyblockAPIError"
    ensures var ids := ParseAll(PresentUuids(entries), parseUuid);
            PresentUuids(entries) != [] && ids.Some? && listed.Some? && MissingIds(ids.value, listed.value) != [] ==>
              r == Err(Raised("VelaSimplyblockAPIError",
                              "Missing snapshots in Simplyblock response: " + Join(MissingIds(ids.value, listed.value), ", ")))
  {
    var ids := ParseAll(PresentUuids(entries), parseUuid);
    if ids.Some? && listed.Some? then
      MissingIdsMeaning(ids.value, listed.value);
      UsedSizeOfUuids(PresentUuids(entries), parseUuid, listed)
    else UsedSizeOfUuids(PresentUuids(entries), parseUuid, listed)
  }

  /** The used size once the snapshot UUIDs of the entries are collected. */
  function UsedSizeOfUuids(values: seq<string>, parseUuid: string -> Option<string>,
                           listed: Option<seq<SimplyblockSnapshot>>): (r: Result<int>)
    ensures values == [] ==> r == Ok(0)
    ensures r.Err? ==> r.failure.Raised? && r.failure.kind == "VelaSimplyblockAPIError"
  {
    if values == [] then Ok(0)
    else
      var ids := ParseAll(values, parseUuid);
      if ids.None? then Err(Raised("VelaSimplyblockAPIError", "Invalid snapshot UUID in backup entries"))
      else if listed.None? then Err(Raised("VelaSimplyblockAPIError", "Failed to list Simplyblock snapshots"))
      else if !AllListed(ids.value, listed.value) then
        Err(Raised("VelaSimplyblockAPIError",
                   "Missing snapshots in Simplyblock response: " + Join(MissingIds(ids.value, listed.value), ", ")))
      else Ok(SumSizes(ids.value, listed.value))
  }

  /** The used size is known exactly when there is no snapshot UUID, or
      every UUID converts, the listing succeeded and lists every id. */
  lemma BranchSnapshotsUsedSizeSucceeds(entries: seq<Option<string>>, parseUuid: string -> Option<string>,
                                        listed: Option<seq<SimplyblockSnapshot>>)
    ensures BranchSnapshotsUsedSize(entries, parseUuid, listed).Ok? <==>
              PresentUuids(entries) == [] ||
              (listed.Some? &&
               forall u :: Some(u) in entries ==> parseUuid(u).Some? && UsedSizeById(listed.value, parseUuid(u).value).Some?)
  {
    var values := PresentUuids(entries);
    var ids := ParseAll(values, parseUuid);
    ParseAllMeaning(values, parseUuid);
    if values != [] && listed.Some? {
      if forall u :: Some(u) in entries ==> parseUuid(u).Some? && UsedSizeById(listed.value, parseUuid(u).value).Some? {
        assert ids.Some?;
        forall i | 0 <= i < |ids.value| ensures UsedSizeById(listed.value, ids.value[i]).Some? {
          assert values[i] in values;
        }
      }
      if ids.None? {
        var i :| 0 <= i < |values| && parseUuid(values[i]).None?;
        assert values[i] in values;
      } else if AllListed(ids.value, listed.value) {
        forall u | Some(u) in entries ensures parseUuid(u).Some? && UsedSizeById(listed.value, parseUuid(u).value).Some? {
          var i :| 0 <= i < |values| && values[i] == u;
        }
      } else {
        var i :| 0 <= i < |ids.value| && UsedSizeById(listed.value, ids.value[i]).None?;
        assert values[i] in values;
      }
    }
  }

  lemma {:induction false} PresentUuidsAppend(a: seq<Option<string>>, b: seq<Option<string>>)
    ensures PresentUuids(a + b) == PresentUuids(a) + PresentUuids(b)
  {
    if a != [] {
      assert (a + b)[1..] == a[1..] + b;
      PresentUuidsAppend(a[1..], b);
    } else {
      assert a + b == b;
    }
  }

  lemma {:induction false} ParseAllAppend(a: seq<string>, b: seq<string>, parseUuid: string -> Option<string>)
    requires ParseAll(a, parseUuid).Some? && ParseAll(b, parseUuid).Some?
    ensures ParseAll(a + b, parseUuid) == Some(ParseAll(a, parseUuid).value + ParseAll(b, parseUuid).value)
  {
    if a != [] {
      assert (a + b)[0] == a[0] && (a + b)[1..] == a[1..] + b;
      ParseAllAppend(a[1..], b, parseUuid);
      var p0, x, y := parseUuid(a[0]).value, ParseAll(a[1..], parseUuid).value, ParseAll(b, parseUuid).value;
      assert [p0] + (x + y) == ([p0] + x) + y;
    } else {
      assert a + b == b;
      assert [] + ParseAll(b, parseUuid).value == ParseAll(b, parseUuid).value;
    }
  }

  lemma {:induction false} SumSizesAppend(a: seq<string>, b: seq<string>, snapshots: seq<SimplyblockSnapshot>)
    requires AllListed(a, snapshots) && AllListed(b, snapshots)
    ensures AllListed(a + b, snapshots)
    ensures SumSizes(a + b, snapshots) == SumSizes(a, snapshots) + SumSizes(b, snapshots)
  {
    assert forall i :: 0 <= i < |a + b| ==> (a + b)[i] == if i < |a| then a[i] else b[i - |a|];
    if a != [] {
      assert (a + b)[1..] == a[1..] + b;
      assert forall i :: 0 <= i < |a| - 1 ==> a[1..][i] == a[i + 1];
      SumSizesAppend(a[1..], b, snapshots);
    } else {
      assert a + b == b;
    }
  }

  /** The used size of two lists of entries together is the sum of theirs:
      every entry counts, so a snapshot shared by two entries counts twice. */
  lemma UsedSizeAdds(a: seq<Option<string>>, b: seq<Option<string>>, parseUuid: string -> Option<string>,
                     listed: Option<seq<SimplyblockSnapshot>>, x: int, y: int)
    requires BranchSnapshotsUsedSize(a, parseUuid, listed) == Ok(x)
    requires BranchSnapshotsUsedSize(b, parseUuid, listed) == Ok(y)
    ensures BranchSnapshotsUsedSize(a + b, parseUuid, listed) == Ok(x + y)
  {
    PresentUuidsAppend(a, b);
    UuidsUsedSizeAdds(PresentUuids(a), PresentUuids(b), parseUuid, listed, x, y);
  }

  lemma UuidsUsedSizeAdds(va: seq<string>, vb: seq<string>, parseUuid: string -> Option<string>,
                          listed: Option<seq<SimplyblockSnapshot>>, x: int, y: int)
    requires UsedSizeOfUuids(va, parseUuid, listed) == Ok(x)
    requires UsedSizeOfUuids(vb, parseUuid, listed) == Ok(y)
    ensures UsedSizeOfUuids(va + vb, parseUuid, listed) == Ok(x + y)
  {
    if va == [] {
      assert va + vb == vb;
    } else if vb == [] {
      assert va + vb == va;
    } else {
      var pa, pb := ParseAll(va, parseUuid).value, ParseAll(vb, parseUuid).value;
      ParseAllAppend(va, vb, parseUuid);
      SumSizesAppend(pa, pb, listed.value);
      assert (va + vb) != [];
    }
  }

  /** Listing the same backups twice doubles the used size. */
  lemma UsedSizeCountsDuplicates(entries: seq<Option<string>>, parseUuid: string -> Option<string>,
                                 listed: Option<seq<SimplyblockSnapshot>>, x: int)
    requires BranchSnapshotsUsedSize(entries, parseUuid, listed) == Ok(x)
    ensures BranchSnapshotsUsedSize(entries + entries, parseUuid, listed) == Ok(x + x)
  {
    UsedSizeAdds(entries, entries, parseUuid, listed, x, x);
  }

  // -------------------------------------------------------------- deletion

  /** The objects `delete_branch_snapshot` makes sure are gone. */
  datatype Removal = RemoveSnapshot(namespace: string, name: string) | RemoveContent(contentName: string)

  predicate Given(s: Option<string>) { s.Some? && s.value != [] }

  /** `delete_branch_snapshot`: `existing` is what reading the snapshot
      gave: `None` when it is absent, else its bound content name. A
      missing name or namespace skips everything; otherwise an existing
      snapshot is removed, then the content named by the caller or, failing
      that, by the snapshot. */
  function DeleteBranchSnapshot(name: Option<string>, namespace: Option<string>, contentName: Option<string>,
                                existing: Option<Option<string>>): (r: seq<Removal>)
    ensures !Given(name) || !Given(namespace) ==> r == []
  {
    if !Given(name) || !Given(namespace) then []
    else
      var derived := if existing.Some? && !Given(contentName) then existing.value else contentName;
      (if existing.Some? then [RemoveSnapshot(namespace.value, name.value)] else []) +
      (if Given(derived) then [RemoveContent(derived.value)] else [])
  }

  /** With a name and a namespace the snapshot is removed exactly when it
      exists, a content name from the caller is always removed (even when
      the snapshot is already gone), and at most one content is removed. */
  lemma DeleteBranchSnapshotMeaning(name: Option<string>, namespace: Option<string>, contentName: Option<string>,
                                    existing: Option<Option<string>>)
    requires Given(name) && Given(namespace)
    ensures var r := DeleteBranchSnapshot(name, namespace, contentName, existing);
            (RemoveSnapshot(namespace.value, name.value) in r <==> existing.Some?) &&
            (Given(contentName) ==> r[|r| - 1] == RemoveContent(contentName.value)) &&
            (!Given(contentName) && existing.Some? && Given(existing.value) ==> r[|r| - 1] == RemoveContent(existing.value.value)) &&
            (forall i, j :: 0 <= i < j < |r| && r[i].RemoveContent? ==> !r[j].RemoveContent?)
  {
  }
}
