/** Rebalancing branch VMs across cluster nodes: the VMs' CPU limits are
    summed per node, and from every node loaded above the average by more
    than the threshold one VM is live-migrated, largest CPU limit first.
    Decimal quantities are exact reals here. */
module Rebalance {
  import opened Common

  /** The default imbalance threshold, 0.15. */
  const DefaultThreshold: real := 0.15

  // -------------------------------------------------------- CPU quantities

  /** A CPU value as the VMI spec holds it: a Decimal, a number, or text. */
  datatype CpuValue = CpuDecimal(d: real) | CpuNumber(n: real) | CpuText(text: string)

  /** `_parse_cpu_quantity`; `parseDecimal` stands for `Decimal(text)`,
      which may raise. Numbers are taken as they are and blank text is
      zero. */
  function ParseCpuQuantity(v: CpuValue, parseDecimal: string -> Result<real>): (r: Result<real>)
    ensures v.CpuDecimal? ==> r == Ok(v.d)
    ensures v.CpuNumber? ==> r == Ok(v.n)
    ensures v.CpuText? && Strip(v.text) == [] ==> r == Ok(0.0)
    ensures r.Err? ==> v.CpuText? && Strip(v.text) != [] && exists s :: parseDecimal(s) == r
  {
    match v
    case CpuDecimal(d) => Ok(d)
    case CpuNumber(n) => Ok(n)
    case CpuText(s) =>
      var text := Strip(s);
      if text == [] then Ok(0.0)
      else if text[|text| - 1] == 'm' then
        match parseDecimal(text[..|text| - 1])
        case Ok(x) => Ok(x / 1000.0)
        case Err(e) => Err(e)
      else parseDecimal(text)
  }

  /** Text ending in "m" counts thousandths of a CPU. */
  lemma ParseCpuMillis(text: string, digits: string, parseDecimal: string -> Result<real>)
    requires Strip(text) == digits + "m"
    ensures ParseCpuQuantity(CpuText(text), parseDecimal) ==
            match parseDecimal(digits)
            case Ok(x) => Ok(x / 1000.0)
            case Err(e) => Err(e)
  {
    assert (digits + "m")[..|digits + "m"| - 1] == digits;
  }

  /** A quantity written in thousandths reads as a thousandth of the same
      digits written as whole CPUs, and fails exactly when they fail. */
  lemma MillisAreThousandths(millis: string, whole: string, parseDecimal: string -> Result<real>)
    requires Strip(whole) != [] && Strip(whole)[|Strip(whole)| - 1] != 'm'
    requires Strip(millis) == Strip(whole) + "m"
    ensures ParseCpuQuantity(CpuText(millis), parseDecimal).Err? <==> ParseCpuQuantity(CpuText(whole), parseDecimal).Err?
    ensures ParseCpuQuantity(CpuText(millis), parseDecimal).Ok? ==>
              ParseCpuQuantity(CpuText(millis), parseDecimal).value * 1000.0 ==
              ParseCpuQuantity(CpuText(whole), parseDecimal).value
  {
    ParseCpuMillis(millis, Strip(whole), parseDecimal);
    ParseCpuWhole(whole, parseDecimal);
  }

  /** Other text is read as a decimal number of CPUs. */
  lemma ParseCpuWhole(text: string, parseDecimal: string -> Result<real>)
    requires Strip(text) != [] && Strip(text)[|Strip(text)| - 1] != 'm'
    ensures ParseCpuQuantity(CpuText(text), parseDecimal) == parseDecimal(Strip(text))
  {
  }

  /** `spec.domain.resources` of a VMI: its `limits` and `requests`. */
  datatype VmiResources = VmiResources(limits: map<string, CpuValue>, requests: map<string, CpuValue>)

  /** `_extract_cpu_limit`: the CPU limit, else the CPU request, kept only
      when positive; no resources or no CPU value gives `None`. */
  function ExtractCpuLimit(resources: Option<VmiResources>, parseDecimal: string -> Result<real>): (r: Result<Option<real>>)
    ensures r.Ok? && r.value.Some? ==> r.value.value > 0.0
    ensures resources.None? ==> r == Ok(None)
    ensures resources.Some? && "cpu" !in resources.value.limits && "cpu" !in resources.value.requests ==> r == Ok(None)
    ensures resources.Some? && "cpu" in resources.value.limits ==>
              r == match ParseCpuQuantity(resources.value.limits["cpu"], parseDecimal)
                   case Err(e) => Err(e)
                   case Ok(c) => Ok(if c > 0.0 then Some(c) else None)
  {
    if resources.None? then Ok(None)
    else
      var value := if "cpu" in resources.value.limits then Some(resources.value.limits["cpu"])
                   else if "cpu" in resources.value.requests then Some(resources.value.requests["cpu"])
                   else None;
      if value.None? then Ok(None)
      else
        match ParseCpuQuantity(value.value, parseDecimal)
        case Err(e) => Err(e)
        case Ok(c) => Ok(if c > 0.0 then Some(c) else None)
  }

  // ------------------------------------------------------------ placements

  /** A running branch VM and the node it runs on. */
  datatype Placement = Placement(namespace: string, name: string, node: string, cpuLimit: real)

  /** The members of a listed VirtualMachineInstance that are read. */
  datatype VmiItem = VmiItem(namespace: Option<string>, name: Option<string>, phase: Option<string>,
                             nodeName: Option<string>, resources: Option<VmiResources>)

  predicate Given(s: Option<string>) { s.Some? && s.value != [] }

  /** A VMI of a branch namespace, running, and placed on a node. */
  predicate IsBranchVmi(item: VmiItem, prefix: string) {
    Given(item.namespace) && Given(item.name) && StartsWith(item.namespace.value, prefix) &&
    item.phase == Some("Running") && Given(item.nodeName)
  }

  /** What the listing keeps of one item. */
  function PlacementOf(item: VmiItem, prefix: string, parseDecimal: string -> Result<real>): Result<Option<Placement>> {
    if !IsBranchVmi(item, prefix) then Ok(None)
    else
      match ExtractCpuLimit(item.resources, parseDecimal)
      case Err(e) => Err(e)
      case Ok(None) => Ok(None)
      case Ok(Some(cpu)) => Ok(Some(Placement(item.namespace.value, item.name.value, item.nodeName.value, cpu)))
  }

  /** The placements of the listed items, in order. */
  function Placements(items: seq<VmiItem>, prefix: string, parseDecimal: string -> Result<real>): Result<seq<Placement>>
    decreases |items|
  {
    if items == [] then Ok([])
    else
      match Placements(items[..|items| - 1], prefix, parseDecimal)
      case Err(e) => Err(e)
      case Ok(ps) =>
        match PlacementOf(items[|items| - 1], prefix, parseDecimal)
        case Err(e) => Err(e)
        case Ok(None) => Ok(ps)
        case Ok(Some(p)) => Ok(ps + [p])
  }

  /** Every placement comes from a running, placed VMI of a branch
      namespace with a positive CPU limit, and every such VMI gives one. */
  lemma {:induction false} PlacementsMeaning(items: seq<VmiItem>, prefix: string, parseDecimal: string -> Result<real>)
    requires Placements(items, prefix, parseDecimal).Ok?
    ensures forall p :: p in Placements(items, prefix, parseDecimal).value ==>
              StartsWith(p.namespace, prefix) && p.node != [] && p.cpuLimit > 0.0 &&
              exists i :: 0 <= i < |items| && IsBranchVmi(items[i], prefix) && PlacementOf(items[i], prefix, parseDecimal) == Ok(Some(p))
    ensures forall i :: (0 <= i < |items| && PlacementOf(items[i], prefix, parseDecimal).Ok? &&
                         PlacementOf(items[i], prefix, parseDecimal).value.Some?) ==>
              PlacementOf(items[i], prefix, parseDecimal).value.value in Placements(items, prefix, parseDecimal).value
  {
    if items != [] {
      var init := items[..|items| - 1];
      PlacementsMeaning(init, prefix, parseDecimal);
      assert forall i :: 0 <= i < |init| ==> init[i] == items[i];
    }
  }

  /** `_list_branch_vmis` after the cluster-wide listing: the loop that
      skips every item that is not a running, placed VMI of a branch
      namespace with a positive CPU limit. */
  method ListBranchVmis(items: seq<VmiItem>, prefix: string, parseDecimal: string -> Result<real>)
    returns (r: Result<seq<Placement>>)
    ensures r == Placements(items, prefix, parseDecimal)
  {
    var placements: seq<Placement> := [];
    var i := 0;
    while i < |items|
      invariant 0 <= i <= |items|
      invariant Placements(items[..i], prefix, parseDecimal) == Ok(placements)
    {
      assert items[..i + 1][..i] == items[..i];
      var item := items[i];
      if !IsBranchVmi(item, prefix) {
        i := i + 1;
        continue;
      }
      var cpu := ExtractCpuLimit(item.resources, parseDecimal);
      if cpu.Err? {
        ErrPersists(items, i + 1, prefix, parseDecimal, cpu.failure);
        return Err(cpu.failure);
      }
      if cpu.value.Some? {
        placements := placements + [Placement(item.namespace.value, item.name.value, item.nodeName.value, cpu.value.value)];
      }
      i := i + 1;
    }
    assert items[..|items|] == items;
    r := Ok(placements);
  }

  /** A failure on a prefix of the items is the failure of the listing. */
  lemma {:induction false} ErrPersists(items: seq<VmiItem>, n: nat, prefix: string, parseDecimal: string -> Result<real>, e: Failure)
    requires n <= |items|
    requires Placements(items[..n], prefix, parseDecimal) == Err(e)
    ensures Placements(items, prefix, parseDecimal) == Err(e)
    decreases |items| - n
  {
    if n < |items| {
      assert items[..n + 1][..n] == items[..n];
      ErrPersists(items, n + 1, prefix, parseDecimal, e);
    } else {
      assert items[..n] == items;
    }
  }

  // ---------------------------------------------------------- node loads

  /** The node loads as an insertion-ordered dictionary. */
  type Loads = seq<(string, real)>

  /** `loads[node]` of the defaultdict: 0 for a node not yet seen. */
  function Load(loads: Loads, node: string): real {
    if loads == [] then 0.0
    else if loads[0].0 == node then loads[0].1
    else Load(loads[1..], node)
  }

  /** `loads[node] += amount`. */
  function AddLoad(loads: Loads, node: string, amount: real): (r: Loads)
    ensures |r| == |loads| || r == loads + [(node, amount)]
    ensures Load(r, node) == Load(loads, node) + amount
    ensures forall n :: n != node ==> Load(r, n) == Load(loads, n)
    ensures forall k :: k in Keys(r) <==> k in Keys(loads) || k == node
  {
    if loads == [] then [(node, amount)]
    else if loads[0].0 == node then [(node, loads[0].1 + amount)] + loads[1..]
    else [loads[0]] + AddLoad(loads[1..], node, amount)
  }

  function Keys(loads: Loads): (r: seq<string>)
    ensures |r| == |loads|
    ensures forall i :: 0 <= i < |loads| ==> r[i] == loads[i].0
  {
    if loads == [] then [] else [loads[0].0] + Keys(loads[1..])
  }

  function SumValues(loads: Loads): real {
    if loads == [] then 0.0 else loads[0].1 + SumValues(loads[1..])
  }

  /** The loads of the placements, accumulated in order. */
  function LoadsOf(ps: seq<Placement>): Loads
    decreases |ps|
  {
    if ps == [] then [] else AddLoad(LoadsOf(ps[..|ps| - 1]), ps[|ps| - 1].node, ps[|ps| - 1].cpuLimit)
  }

  /** The summed CPU limit of the placements on `node`. */
  function SumOn(ps: seq<Placement>, node: string): real
    decreases |ps|
  {
    if ps == [] then 0.0
    else SumOn(ps[..|ps| - 1], node) + (if ps[|ps| - 1].node == node then ps[|ps| - 1].cpuLimit else 0.0)
  }

  function SumCpu(ps: seq<Placement>): real
    decreases |ps|
  {
    if ps == [] then 0.0 else SumCpu(ps[..|ps| - 1]) + ps[|ps| - 1].cpuLimit
  }

  lemma {:induction false} SumValuesAdd(loads: Loads, node: string, amount: real)
    ensures SumValues(AddLoad(loads, node, amount)) == SumValues(loads) + amount
  {
    if loads != [] && loads[0].0 != node {
      SumValuesAdd(loads[1..], node, amount);
    }
  }

  lemma {:induction false} AddLoadDistinct(loads: Loads, node: string, amount: real)
    requires Distinct(Keys(loads))
    ensures Distinct(Keys(AddLoad(loads, node, amount)))
  {
    if loads != [] {
      assert forall i :: 0 <= i < |loads| - 1 ==> Keys(loads[1..])[i] == Keys(loads)[i + 1];
      if loads[0].0 != node {
        AddLoadDistinct(loads[1..], node, amount);
        var r := AddLoad(loads, node, amount);
        assert Keys(r) == [loads[0].0] + Keys(AddLoad(loads[1..], node, amount));
        assert loads[0].0 !in Keys(loads[1..]);
      } else {
        var r := AddLoad(loads, node, amount);
        assert forall i :: 0 <= i < |r| ==> Keys(r)[i] == Keys(loads)[i];
      }
    }
  }

  /** `_nodes_by_load`: there is one entry per node that holds a placement,
      holding the sum of their CPU limits, and the loads add up to the
      total CPU limit. */
  lemma {:induction false} LoadsOfMeaning(ps: seq<Placement>)
    ensures Distinct(Keys(LoadsOf(ps)))
    ensures forall n :: n in Keys(LoadsOf(ps)) <==> exists i :: 0 <= i < |ps| && ps[i].node == n
    ensures forall n :: Load(LoadsOf(ps), n) == SumOn(ps, n)
    ensures SumValues(LoadsOf(ps)) == SumCpu(ps)
  {
    if ps != [] {
      var init := ps[..|ps| - 1];
      var last := ps[|ps| - 1];
      LoadsOfMeaning(init);
      AddLoadDistinct(LoadsOf(init), last.node, last.cpuLimit);
      SumValuesAdd(LoadsOf(init), last.node, last.cpuLimit);
      assert forall i :: 0 <= i < |init| ==> init[i] == ps[i];
      forall n | n in Keys(LoadsOf(ps)) ensures exists i :: 0 <= i < |ps| && ps[i].node == n {
        if n != last.node {
          assert n in Keys(LoadsOf(init));
        }
      }
    }
  }

  /** `_nodes_by_load`: the loop adding each placement's CPU limit to its
      node. */
  method NodesByLoad(ps: seq<Placement>) returns (loads: Loads)
    ensures loads == LoadsOf(ps)
  {
    loads := [];
    var i := 0;
    while i < |ps|
      invariant 0 <= i <= |ps|
      invariant loads == LoadsOf(ps[..i])
    {
      assert ps[..i + 1][..i] == ps[..i];
      loads := AddLoad(loads, ps[i].node, ps[i].cpuLimit);
      i := i + 1;
    }
    assert ps[..|ps|] == ps;
  }

  // ------------------------------------------------------------- sorting

  predicate SortedDesc<T>(xs: seq<T>, key: T -> real) {
    forall i, j :: 0 <= i < j < |xs| ==> key(xs[i]) >= key(xs[j])
  }

  function Insert<T(!new)>(x: T, s: seq<T>, key: T -> real): (r: seq<T>)
    ensures |r| == |s| + 1
    ensures forall y :: y in r <==> y == x || y in s
  {
    if s == [] || key(x) >= key(s[0]) then [x] + s else [s[0]] + Insert(x, s[1..], key)
  }

  /** `sorted(xs, key=key, reverse=True)`: an insertion sort that puts each
      element before the later ones of equal key, so it is stable. */
  function SortDesc<T(!new)>(xs: seq<T>, key: T -> real): (r: seq<T>)
    ensures |r| == |xs|
    ensures forall y :: y in r <==> y in xs
  {
    if xs == [] then [] else Insert(xs[0], SortDesc(xs[1..], key), key)
  }

  lemma {:induction false} InsertSorted<T(!new)>(x: T, s: seq<T>, key: T -> real)
    requires SortedDesc(s, key)
    ensures SortedDesc(Insert(x, s, key), key)
  {
    if s != [] && key(x) < key(s[0]) {
      InsertSorted(x, s[1..], key);
      var t := Insert(x, s[1..], key);
      forall y | y in t ensures key(s[0]) >= key(y) {
        if y != x {
          var j :| 0 <= j < |s[1..]| && s[1..][j] == y;
          assert s[j + 1] == y;
        }
      }
      assert forall j :: 0 <= j < |t| ==> t[j] in t;
    }
  }

  lemma {:induction false} InsertDistinct<T(!new)>(x: T, s: seq<T>, key: T -> real)
    requires Distinct(s) && x !in s
    ensures Distinct(Insert(x, s, key))
  {
    if s != [] && key(x) < key(s[0]) {
      assert s[0] !in s[1..];
      InsertDistinct(x, s[1..], key);
      var t := Insert(x, s[1..], key);
      assert forall j :: 0 <= j < |t| ==> t[j] in t;
    }
  }

  /** The sort orders by descending key and keeps distinct elements
      distinct. */
  lemma {:induction false} SortDescMeaning<T(!new)>(xs: seq<T>, key: T -> real)
    ensures SortedDesc(SortDesc(xs, key), key)
    ensures Distinct(xs) ==> Distinct(SortDesc(xs, key))
  {
    if xs != [] {
      SortDescMeaning(xs[1..], key);
      InsertSorted(xs[0], SortDesc(xs[1..], key), key);
      if Distinct(xs) {
        assert xs[0] !in xs[1..];
        InsertDistinct(xs[0], SortDesc(xs[1..], key), key);
      }
    }
  }

  /** The elements whose key is `k`. */
  function HasKeyReal<T>(key: T -> real, k: real): T -> bool {
    (e: T) => key(e) == k
  }

  /** Inserting an element puts it before every element of its own key. */
  lemma {:induction false} InsertStable<T(!new)>(x: T, s: seq<T>, key: T -> real, k: real)
    ensures Filter(Insert(x, s, key), HasKeyReal(key, k)) == Filter([x], HasKeyReal(key, k)) + Filter(s, HasKeyReal(key, k))
  {
    var p := HasKeyReal(key, k);
    FilterSingle(x, p);
    if s == [] || key(x) >= key(s[0]) {
      FilterAppend([x], s, p);
    } else {
      var t, r := s[1..], Insert(x, s[1..], key);
      InsertStable(x, t, key, k);
      FilterSingle(s[0], p);
      calc {
        Filter(Insert(x, s, key), p);
        == { FilterAppend([s[0]], r, p); }
        Filter([s[0]], p) + (Filter([x], p) + Filter(t, p));
        == // `x` and `s[0]` have different keys, so at most one of them is kept
        Filter([x], p) + (Filter([s[0]], p) + Filter(t, p));
        == { assert s == [s[0]] + t; FilterAppend([s[0]], t, p); }
        Filter([x], p) + Filter(s, p);
      }
    }
  }

  /** `sorted(..., reverse=True)` is stable: elements of equal key keep their
      listing order. */
  lemma {:induction false} SortDescStable<T(!new)>(xs: seq<T>, key: T -> real, k: real)
    ensures Filter(SortDesc(xs, key), HasKeyReal(key, k)) == Filter(xs, HasKeyReal(key, k))
  {
    if xs != [] {
      SortDescStable(xs[1..], key, k);
      InsertStable(xs[0], SortDesc(xs[1..], key), key, k);
      assert xs == [xs[0]] + xs[1..];
      FilterAppend([xs[0]], xs[1..], HasKeyReal(key, k));
    }
  }

  // ----------------------------------------------------------- the plan

  /** `placements_by_node[node]`. */
  function OnNode(ps: seq<Placement>, node: string): (r: seq<Placement>)
    ensures forall p :: p in r <==> p in ps && p.node == node
  {
    var onNode := (p: Placement) => p.node == node;
    FilterMembershipAll(ps, onNode);
    Filter(ps, onNode)
  }

  /** The first candidate whose migration request succeeds. */
  function FirstMigrated(cs: seq<Placement>, migrate: Placement -> bool): (r: Option<Placement>)
    ensures r.None? <==> forall c :: c in cs ==> !migrate(c)
    ensures r.Some? ==> r.value in cs && migrate(r.value)
  {
    if cs == [] then None else if migrate(cs[0]) then Some(cs[0]) else FirstMigrated(cs[1..], migrate)
  }

  /** The first success of a list sorted by descending CPU limit has the
      largest CPU limit of all successes. */
  lemma {:induction false} FirstMigratedIsLargest(cs: seq<Placement>, migrate: Placement -> bool)
    requires SortedDesc(cs, CpuKey)
    requires FirstMigrated(cs, migrate).Some?
    ensures forall q :: q in cs && migrate(q) ==> q.cpuLimit <= FirstMigrated(cs, migrate).value.cpuLimit
  {
    if !migrate(cs[0]) {
      FirstMigratedIsLargest(cs[1..], migrate);
      forall q | q in cs && migrate(q) ensures q in cs[1..] {
        if q == cs[0] {
          assert false;
        }
      }
    } else {
      assert forall j :: 0 <= j < |cs| ==> cs[0].cpuLimit >= cs[j].cpuLimit;
    }
  }

  /** The first success is found at `j` when every candidate before fails. */
  lemma {:induction false} FirstMigratedAt(cs: seq<Placement>, migrate: Placement -> bool, j: nat)
    requires j <= |cs|
    requires forall i :: 0 <= i < j ==> !migrate(cs[i])
    ensures j < |cs| && migrate(cs[j]) ==> FirstMigrated(cs, migrate) == Some(cs[j])
    ensures FirstMigrated(cs, migrate) == FirstMigrated(cs[j..], migrate)
  {
    if j > 0 {
      FirstMigratedAt(cs[1..], migrate, j - 1);
      assert cs[1..][j - 1..] == cs[j..];
    }
  }

  function CpuKey(p: Placement): real { p.cpuLimit }

  /** The candidates of a node, largest CPU limit first. */
  function Candidates(ps: seq<Placement>, node: string): seq<Placement> {
    SortDesc(OnNode(ps, node), CpuKey)
  }

  /** The first of the candidates that migrates, if any. */
  function MovedFrom(cs: seq<Placement>, migrate: Placement -> bool): seq<Placement> {
    match FirstMigrated(cs, migrate)
    case None => []
    case Some(c) => [c]
  }

  /** What one overloaded node contributes: its first candidate that
      migrates, if any. */
  function Moved(ps: seq<Placement>, node: string, migrate: Placement -> bool): seq<Placement> {
    MovedFrom(Candidates(ps, node), migrate)
  }

  function Plan(ps: seq<Placement>, order: seq<string>, migrate: Placement -> bool): seq<Placement>
    decreases |order|
  {
    if order == [] then [] else Plan(ps, order[..|order| - 1], migrate) + Moved(ps, order[|order| - 1], migrate)
  }

  /** The average load and the bounds around it. */
  datatype Bounds = Bounds(average: real, upper: real, lower: real)

  function BoundsOf(loads: Loads, threshold: real): Bounds
    requires |loads| > 0
  {
    var average := SumValues(loads) / (|loads| as real);
    Bounds(average, average * (1.0 + threshold), average * (1.0 - threshold))
  }

  /** The nodes loaded above the upper bound, in dictionary order. */
  function Overloaded(loads: Loads, upper: real): (r: seq<string>)
    ensures forall n :: n in r <==> n in Keys(loads) && Load(loads, n) > upper
    ensures Distinct(Keys(loads)) ==> Distinct(r)
  {
    var over := n => Load(loads, n) > upper;
    FilterMembershipAll(Keys(loads), over);
    if Distinct(Keys(loads)) then
      FilterDistinct(Keys(loads), over);
      Filter(Keys(loads), over)
    else Filter(Keys(loads), over)
  }

  /** The nodes loaded below the lower bound, in dictionary order. */
  function Underloaded(loads: Loads, lower: real): (r: seq<string>)
    ensures forall n :: n in r <==> n in Keys(loads) && Load(loads, n) < lower
  {
    var under := n => Load(loads, n) < lower;
    FilterMembershipAll(Keys(loads), under);
    Filter(Keys(loads), under)
  }

  /** Whether the loads call for migrations at all. */
  predicate Imbalanced(ps: seq<Placement>, threshold: real) {
    var loads := LoadsOf(ps);
    |ps| > 1 && |loads| > 1 && SumValues(loads) != 0.0 &&
    Overloaded(loads, BoundsOf(loads, threshold).upper) != [] &&
    Underloaded(loads, BoundsOf(loads, threshold).lower) != []
  }

  /** The order the overloaded nodes are visited in: heaviest first. */
  function NodeOrder(loads: Loads, upper: real): seq<string> {
    SortDesc(Overloaded(loads, upper), n => Load(loads, n))
  }

  /** The migrations `rebalance_virtual_machines` makes. */
  function Migrations(ps: seq<Placement>, threshold: real, migrate: Placement -> bool): seq<Placement> {
    if !Imbalanced(ps, threshold) then []
    else
      var loads := LoadsOf(ps);
      Plan(ps, NodeOrder(loads, BoundsOf(loads, threshold).upper), migrate)
  }

  /** A node gives up its first candidate that migrates, and that is one
      of its own VMs with the largest CPU limit among those that can
      migrate; it gives up one whenever one of its VMs can migrate. */
  lemma MovedMeaning(ps: seq<Placement>, node: string, migrate: Placement -> bool)
    ensures |Moved(ps, node, migrate)| <= 1
    ensures forall m :: m in Moved(ps, node, migrate) ==>
              m in ps && m.node == node && migrate(m) &&
              forall q :: q in ps && q.node == node && migrate(q) ==> q.cpuLimit <= m.cpuLimit
    ensures (exists q :: q in ps && q.node == node && migrate(q)) ==> Moved(ps, node, migrate) != []
  {
    var cs := Candidates(ps, node);
    SortDescMeaning(OnNode(ps, node), CpuKey);
    if FirstMigrated(cs, migrate).Some? {
      FirstMigratedIsLargest(cs, migrate);
    } else {
      forall q | q in ps && q.node == node ensures !migrate(q) {
        assert q in cs;
      }
    }
  }

  /** Every migration of a plan is a VM of a visited node that can migrate
      and has the largest CPU limit of its node's VMs that can. */
  lemma {:induction false} PlanSound(ps: seq<Placement>, order: seq<string>, migrate: Placement -> bool)
    ensures forall m :: m in Plan(ps, order, migrate) ==>
              m in ps && migrate(m) && m.node in order &&
              forall q :: q in ps && q.node == m.node && migrate(q) ==> q.cpuLimit <= m.cpuLimit
  {
    if order != [] {
      var init := order[..|order| - 1];
      PlanSound(ps, init, migrate);
      MovedMeaning(ps, order[|order| - 1], migrate);
      assert forall n :: n in init ==> n in order;
    }
  }

  /** Visiting distinct nodes, a plan takes at most one VM per node. */
  lemma {:induction false} PlanOnePerNode(ps: seq<Placement>, order: seq<string>, migrate: Placement -> bool)
    requires Distinct(order)
    ensures forall i, j :: 0 <= i < j < |Plan(ps, order, migrate)| ==>
              Plan(ps, order, migrate)[i].node != Plan(ps, order, migrate)[j].node
  {
    if order != [] {
      var init := order[..|order| - 1];
      var node := order[|order| - 1];
      PlanOnePerNode(ps, init, migrate);
      PlanSound(ps, init, migrate);
      MovedMeaning(ps, node, migrate);
      assert node !in init;
      var before := Plan(ps, init, migrate);
      var plan := Plan(ps, order, migrate);
      forall i, j | 0 <= i < j < |plan| ensures plan[i].node != plan[j].node {
        if j >= |before| {
          assert plan[i] in before;
          assert plan[j] in Moved(ps, node, migrate);
        }
      }
    }
  }

  /** A plan takes a VM from every visited node with a VM that can migrate. */
  lemma {:induction false} PlanComplete(ps: seq<Placement>, order: seq<string>, migrate: Placement -> bool)
    ensures forall n :: n in order && (exists q :: q in ps && q.node == n && migrate(q)) ==>
              exists m :: m in Plan(ps, order, migrate) && m.node == n
  {
    if order != [] {
      var init := order[..|order| - 1];
      var node := order[|order| - 1];
      PlanComplete(ps, init, migrate);
      MovedMeaning(ps, node, migrate);
      var before := Plan(ps, init, migrate);
      var plan := Plan(ps, order, migrate);
      forall n | n in order && (exists q :: q in ps && q.node == n && migrate(q))
        ensures exists m :: m in plan && m.node == n
      {
        if n == node {
          assert plan[|plan| - 1] in plan;
        } else {
          assert n in init;
          var m :| m in before && m.node == n;
          assert m in plan;
        }
      }
    }
  }

  /** The overloaded nodes are visited once each. */
  lemma NodeOrderDistinct(ps: seq<Placement>, upper: real)
    ensures Distinct(NodeOrder(LoadsOf(ps), upper))
  {
    LoadsOfMeaning(ps);
    SortDescMeaning(Overloaded(LoadsOf(ps), upper), n => Load(LoadsOf(ps), n));
  }

  /** The nodes visited are exactly the overloaded ones. */
  lemma NodeOrderMeaning(ps: seq<Placement>, upper: real)
    ensures forall n :: n in NodeOrder(LoadsOf(ps), upper) <==> SumOn(ps, n) > upper && exists i :: 0 <= i < |ps| && ps[i].node == n
  {
    var loads := LoadsOf(ps);
    LoadsOfMeaning(ps);
  }

  /** No migration happens with at most one placement, at most one node, no
      load, or without both an overloaded and an underloaded node. Every
      migrated VM ran on an overloaded node, its request succeeded, and no
      VM of that node with a larger CPU limit could migrate; each node loses
      at most one VM, and every overloaded node with a VM that can migrate
      loses one. */
  lemma MigrationsMeaning(ps: seq<Placement>, threshold: real, migrate: Placement -> bool)
    ensures !Imbalanced(ps, threshold) ==> Migrations(ps, threshold, migrate) == []
    ensures Imbalanced(ps, threshold) ==>
              var upper := BoundsOf(LoadsOf(ps), threshold).upper;
              var r := Migrations(ps, threshold, migrate);
              (forall m :: m in r ==>
                 m in ps && migrate(m) && SumOn(ps, m.node) > upper &&
                 forall q :: q in ps && q.node == m.node && migrate(q) ==> q.cpuLimit <= m.cpuLimit) &&
              (forall i, j :: 0 <= i < j < |r| ==> r[i].node != r[j].node) &&
              (forall q :: q in ps && SumOn(ps, q.node) > upper && migrate(q) ==> exists m :: m in r && m.node == q.node)
  {
    if Imbalanced(ps, threshold) {
      var upper := BoundsOf(LoadsOf(ps), threshold).upper;
      var order := NodeOrder(LoadsOf(ps), upper);
      assert Migrations(ps, threshold, migrate) == Plan(ps, order, migrate);
      PlanMeaning(ps, order, upper, migrate);
    }
  }

  /** A plan over the overloaded nodes has the properties above. */
  lemma PlanMeaning(ps: seq<Placement>, order: seq<string>, upper: real, migrate: Placement -> bool)
    requires order == NodeOrder(LoadsOf(ps), upper)
    ensures var r := Plan(ps, order, migrate);
              (forall m :: m in r ==>
                 m in ps && migrate(m) && SumOn(ps, m.node) > upper &&
                 forall q :: q in ps && q.node == m.node && migrate(q) ==> q.cpuLimit <= m.cpuLimit) &&
              (forall i, j :: 0 <= i < j < |r| ==> r[i].node != r[j].node) &&
              (forall q :: q in ps && SumOn(ps, q.node) > upper && migrate(q) ==> exists m :: m in r && m.node == q.node)
  {
    NodeOrderMeaning(ps, upper);
    NodeOrderDistinct(ps, upper);
    PlanSound(ps, order, migrate);
    PlanOnePerNode(ps, order, migrate);
    PlanComplete(ps, order, migrate);
    forall q | q in ps && SumOn(ps, q.node) > upper && migrate(q)
      ensures q.node in order
    {
      var i :| 0 <= i < |ps| && ps[i] == q;
    }
  }


  /** One pass of the inner loop over a node's candidates, largest first:
      they are tried until one migrates, whose CPU limit then leaves the
      node's load. The load check that would stop early never fires, since
      the node is visited only while overloaded. */
  method MigrateFromNode(candidates: seq<Placement>, node: string, loads: Loads, upper: real, migrate: Placement -> bool)
    returns (moved: seq<Placement>, next: Loads)
    requires Load(loads, node) > upper
    ensures moved == MovedFrom(candidates, migrate)
    ensures moved == [] ==> next == loads
    ensures |moved| == 1 ==> next == AddLoad(loads, node, -moved[0].cpuLimit)
  {
    next := loads;
    moved := [];
    var j := 0;
    while j < |candidates|
      invariant 0 <= j <= |candidates|
      invariant forall i :: 0 <= i < j ==> !migrate(candidates[i])
      invariant next == loads && moved == []
    {
      var candidate := candidates[j];
      if Load(next, node) <= upper {
        break;
      }
      if !migrate(candidate) {
        j := j + 1;
        continue;
      }
      FirstMigratedAt(candidates, migrate, j);
      moved := [candidate];
      next := AddLoad(loads, node, -moved[0].cpuLimit);
      return;
    }
    FirstMigratedAt(candidates, migrate, j);
  }

  /** The outer loop: the overloaded nodes are visited in order, each
      while its load is still above the upper bound. */
  method VisitOverloaded(ps: seq<Placement>, order: seq<string>, loads: Loads, upper: real, migrate: Placement -> bool)
    returns (migrations: seq<Placement>)
    requires Distinct(order)
    requires forall n :: n in order ==> Load(loads, n) > upper
    ensures migrations == Plan(ps, order, migrate)
  {
    var current := loads;
    migrations := [];
    var k := 0;
    while k < |order|
      invariant 0 <= k <= |order|
      invariant migrations == Plan(ps, order[..k], migrate)
      invariant forall n :: n !in order[..k] ==> Load(current, n) == Load(loads, n)
    {
      var node := order[k];
      assert order[..k + 1][..k] == order[..k];
      assert node !in order[..k];
      assert Load(current, node) == Load(loads, node) > upper;
      var candidates := Candidates(ps, node);
      var moved;
      moved, current := MigrateFromNode(candidates, node, current, upper, migrate);
      migrations := migrations + moved;
      k := k + 1;
    }
    assert order[..|order|] == order;
  }

  /** `rebalance_virtual_machines` after the listing. `migrate` is whether
      the migration request for a VM succeeds. */
  method RebalanceVirtualMachines(ps: seq<Placement>, threshold: real, migrate: Placement -> bool)
    returns (migrations: seq<Placement>)
    ensures migrations == Migrations(ps, threshold, migrate)
  {
    if |ps| <= 1 {
      return [];
    }
    var loads := NodesByLoad(ps);
    if |loads| <= 1 {
      return [];
    }
    var total := SumValues(loads);
    if total == 0.0 {
      return [];
    }
    var bounds := BoundsOf(loads, threshold);
    var overloaded := Overloaded(loads, bounds.upper);
    var underloaded := Underloaded(loads, bounds.lower);
    if overloaded == [] || underloaded == [] {
      return [];
    }
    var order := NodeOrder(loads, bounds.upper);
    NodeOrderDistinct(ps, bounds.upper);
    migrations := VisitOverloaded(ps, order, loads, bounds.upper, migrate);
  }

  /** The namespace prefix of branch VMs: the one given, unless empty, else
      the deployment namespace prefix of the settings followed by
      "-deployment-". */
  function TargetPrefix(namespacePrefix: Option<string>, settingsPrefix: string): (r: string)
    ensures namespacePrefix.Some? && namespacePrefix.value != [] ==> r == namespacePrefix.value
    ensures (namespacePrefix.None? || namespacePrefix.value == []) ==>
              StartsWith(r, settingsPrefix) && EndsWith(r, "-deployment-")
  {
    if namespacePrefix.Some? && namespacePrefix.value != [] then namespacePrefix.value
    else
      assert (settingsPrefix + "-deployment-")[..|settingsPrefix|] == settingsPrefix;
      assert (settingsPrefix + "-deployment-")[|settingsPrefix|..] == "-deployment-";
      settingsPrefix + "-deployment-"
  }

  /** `rebalance_virtual_machines` from the cluster-wide listing on: a
      failing CPU quantity fails the call, and otherwise the migrations are
      those of the branch VMs listed. */
  method RebalanceFromListing(items: seq<VmiItem>, namespacePrefix: Option<string>, settingsPrefix: string,
                              threshold: real := DefaultThreshold, parseDecimal: string -> Result<real>, migrate: Placement -> bool)
    returns (r: Result<seq<Placement>>)
    ensures var ps := Placements(items, TargetPrefix(namespacePrefix, settingsPrefix), parseDecimal);
            match ps
            case Err(e) => r == Err(e)
            case Ok(placements) => r == Ok(Migrations(placements, threshold, migrate))
  {
    var listed := ListBranchVmis(items, TargetPrefix(namespacePrefix, settingsPrefix), parseDecimal);
    if listed.Err? {
      return Err(listed.failure);
    }
    var migrations := RebalanceVirtualMachines(listed.value, threshold, migrate);
    r := Ok(migrations);
  }
}
