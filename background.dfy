/**
 * The data of a loadcase as the background page assembles it — targets, simulations and
 * their curves — and the helpers of that page that do not talk to the server: building a
 * target record from the server's list item, the `Target` constructor, stripping a value's
 * printed number off its representation, comparing a curve with its target, and grouping
 * the curves of all simulations by name.
 *
 * Numbers the server sends and the page only passes on (target values, tolerances, task
 * memory and so on) are kept as the text JavaScript prints for them; `None` is `null`.
 */
module Background {
  import opened Wrappers
  import opened CurveMath
  import Parameters

  // ---------------------------------------------------------------- targets

  /** The `valueData` part of a target list item. */
  datatype ValueData = ValueData(value: string, tolerance: string, left: string, right: string)

  /** One item of the loadcase's dependent-target list, as the server sends it. */
  datatype TargetItem = TargetItem(id: string, name: string, criterion: string, unit: string, valueData: ValueData)

  /** A target value record; only the fields its criterion uses are non-null. */
  datatype TargetValue = TargetValue(
    id: string, name: string, criterion: string, dimension: string,
    value: Option<string>, tolerance: Option<string>, left: Option<string>, right: Option<string>)

  /** The copy of a curve a target keeps: its identity, points, labels and picture. */
  datatype TargetCurve = TargetCurve(
    id: string, name: string, x: seq<real>, xLabel: string, y: seq<real>, yLabel: string, picture: string)

  /** A target of a loadcase: a target value, a target curve, or (never in practice) both. */
  datatype Target = Target(value: Option<TargetValue>, curve: Option<TargetCurve>)

  /** The record built from one target list item: the value unless the criterion is an
      interval, the tolerance only for a tolerance, and both borders only for an interval. */
  function TargetRecord(item: TargetItem): (r: TargetValue)
    ensures r.id == item.id && r.name == item.name
    ensures r.criterion == item.criterion && r.dimension == item.unit
    ensures r.value.None? <==> item.criterion == Parameters.Interval
    ensures r.tolerance.Some? <==> item.criterion == Parameters.Tolerance
    ensures r.left.Some? <==> item.criterion == Parameters.Interval
    ensures r.right.Some? <==> item.criterion == Parameters.Interval
    ensures r.value.Some? ==> r.value.value == item.valueData.value
    ensures r.tolerance.Some? ==> r.tolerance.value == item.valueData.tolerance
    ensures r.left.Some? ==> r.left.value == item.valueData.left
    ensures r.right.Some? ==> r.right.value == item.valueData.right
  {
    var isInterval := item.criterion == Parameters.Interval;
    var isTolerance := item.criterion == Parameters.Tolerance;
    TargetValue(
      item.id, item.name, item.criterion, item.unit,
      if isInterval then None else Some(item.valueData.value),
      if isTolerance then Some(item.valueData.tolerance) else None,
      if isInterval then Some(item.valueData.left) else None,
      if isInterval then Some(item.valueData.right) else None)
  }

  /** The fields a record of each kind of criterion carries. */
  predicate WellShaped(r: TargetValue) {
    if r.criterion == Parameters.Interval then
      r.value.None? && r.tolerance.None? && r.left.Some? && r.right.Some?
    else if r.criterion == Parameters.Tolerance then
      r.value.Some? && r.tolerance.Some? && r.left.None? && r.right.None?
    else
      r.value.Some? && r.tolerance.None? && r.left.None? && r.right.None?
  }

  /** Every record built from a list item has exactly the fields of its criterion. */
  lemma TargetRecordWellShaped(item: TargetItem)
    ensures WellShaped(TargetRecord(item))
  {
    assert Parameters.Interval != Parameters.Tolerance;
  }

  /** `new Target(valueData, curveData)`: each part stays null when its argument is null and
      is otherwise a field-by-field copy of it. */
  function NewTarget(valueData: Option<TargetValue>, curveData: Option<Curve>): (t: Target)
    ensures t.value.None? <==> valueData.None?
    ensures t.curve.None? <==> curveData.None?
    ensures valueData.Some? ==> t.value.value == valueData.value
    ensures curveData.Some? ==>
      var c := curveData.value;
      && t.curve.value.id == c.id && t.curve.value.name == c.name
      && t.curve.value.x == c.x && t.curve.value.y == c.y
      && t.curve.value.xLabel == c.xLabel && t.curve.value.yLabel == c.yLabel
      && t.curve.value.picture == c.picture
  {
    var value := if valueData.None? then None else
      var v := valueData.value;
      Some(TargetValue(v.id, v.name, v.criterion, v.dimension, v.value, v.tolerance, v.left, v.right));
    var curve := if curveData.None? then None else
      var c := curveData.value;
      Some(TargetCurve(c.id, c.name, c.x, c.xLabel, c.y, c.yLabel, c.picture));
    Target(value, curve)
  }

  // ---------------------------------------------------------- simulations

  /** A key result of kind value; its number and dimension stay null when the details
      request fails. */
  datatype Value = Value(id: string, name: string, value: Option<string>, dimension: Option<string>)

  /** A key result of kind picture, with its content as a data URL. */
  datatype Picture = Picture(parent: string, url: string, id: string, name: string, preview: string, content: string)

  /** A solver task of a simulation. */
  datatype Task = Task(id: string, memory: string, cores: string, status: string)

  /** A simulation with its tasks (latest first), values, pictures and curves. A task whose
      details request fails is kept as `null`. */
  datatype Simulation = Simulation(
    id: string, name: string, isTarget: bool,
    tasks: seq<Option<Task>>, values: seq<Value>, pictures: seq<Picture>, curves: seq<Curve>)

  /** `removePrefix(str, prefix)`: `str` without `prefix` when it starts with it, otherwise
      `str` itself. A value's dimension is its representation with the number removed. */
  function RemovePrefix(str: string, prefix: string): (r: string)
    ensures |prefix| <= |str| && str[..|prefix|] == prefix ==> prefix + r == str
    ensures !(|prefix| <= |str| && str[..|prefix|] == prefix) ==> r == str
  {
    if |prefix| <= |str| && str[..|prefix|] == prefix then str[|prefix|..] else str
  }

  /** Removing a prefix that was prepended gives the original text back. */
  lemma RemovePrefixOfPrepended(prefix: string, rest: string)
    ensures RemovePrefix(prefix + rest, prefix) == rest
  {
    assert (prefix + rest)[..|prefix|] == prefix;
  }

  // ---------------------------------------------------------------- curves

  /**
   * A curve key result. Its identity, points, labels and picture are fixed when it is
   * built; the three metrics start out null and are filled in when the curve is compared
   * with a curve of the target simulation.
   */
  class Curve {
    const parentId: string
    const isTarget: bool
    const url: string
    const id: string
    const name: string
    const x: seq<real>
    const xLabel: string
    const y: seq<real>
    const yLabel: string
    const picture: string
    var relativeAreaMetric: Option<Number>
    var sumOfSquaresMetric: Option<real>
    var maxDeviationMetric: Option<real>

    /** The curve as built from its fetched axes data and rendered picture. */
    constructor (parentId: string, isTarget: bool, url: string, id: string, name: string,
                 x: seq<real>, xLabel: string, y: seq<real>, yLabel: string, picture: string)
      ensures this.parentId == parentId && this.isTarget == isTarget && this.url == url
      ensures this.id == id && this.name == name && this.picture == picture
      ensures this.x == x && this.xLabel == xLabel && this.y == y && this.yLabel == yLabel
      ensures relativeAreaMetric.None? && sumOfSquaresMetric.None? && maxDeviationMetric.None?
    {
      this.parentId := parentId;
      this.isTarget := isTarget;
      this.url := url;
      this.id := id;
      this.name := name;
      this.x := x;
      this.xLabel := xLabel;
      this.y := y;
      this.yLabel := yLabel;
      this.picture := picture;
      relativeAreaMetric := None;
      sumOfSquaresMetric := None;
      maxDeviationMetric := None;
    }

    /** The points of the curve, as the comparator reads them. */
    function Points(): Sampled {
      Sampled(x, y)
    }

    /**
     * Takes the metrics from the curve of `targetSimulation` with the same name, provided
     * there is exactly one such curve: the area ratio times 100, the sum of squares and the
     * maximum deviation of this curve against it. With no such curve or several, nothing
     * changes.
     */
    method CompareWithTarget(targetSimulation: Simulation)
      requires var matches := Matching(name, targetSimulation.curves);
        |matches| == 1 ==> Comparable(Points(), matches[0].Points())
      modifies this
      ensures var matches := Matching(name, targetSimulation.curves);
        |matches| != 1 ==>
          && relativeAreaMetric == old(relativeAreaMetric)
          && sumOfSquaresMetric == old(sumOfSquaresMetric)
          && maxDeviationMetric == old(maxDeviationMetric)
      ensures var matches := Matching(name, targetSimulation.curves);
        |matches| == 1 ==>
          var r := Resample(Points(), matches[0].Points());
          && relativeAreaMetric == Some(Times100(AreaMetricOf(r).sampleToTargetAreaRatio))
          && sumOfSquaresMetric == Some(SumOfSquares(r.newSampleY, r.newTargetY, |r.newX|))
          && maxDeviationMetric == Some(MaxDeviation(r.newSampleY, r.newTargetY, |r.newX|))
    {
      var thisTarget := Matching(name, targetSimulation.curves);
      if |thisTarget| == 1 {
        var comparator := new CurveComparator(Points(), thisTarget[0].Points());
        relativeAreaMetric := Some(Times100(comparator.areaMetric.sampleToTargetAreaRatio));
        sumOfSquaresMetric := Some(comparator.sumOfSquaresMetric);
        maxDeviationMetric := Some(comparator.maxDeviationMetric);
      }
    }
  }

  /** The curves of `curves` named `name`, in their order. */
  function Matching(name: string, curves: seq<Curve>): (m: seq<Curve>)
    ensures |m| <= |curves|
    ensures forall c :: c in m ==> c in curves && c.name == name
    ensures forall c :: c in curves && c.name == name ==> c in m
  {
    if curves == [] then []
    else (if curves[0].name == name then [curves[0]] else []) + Matching(name, curves[1..])
  }

  /** A curve whose name no other target curve shares is matched with exactly that curve. */
  lemma {:induction false} SingleMatch(name: string, curves: seq<Curve>, k: nat)
    requires k < |curves| && curves[k].name == name
    requires forall i :: 0 <= i < |curves| && i != k ==> curves[i].name != name
    ensures Matching(name, curves) == [curves[k]]
  {
    if k == 0 {
      NoMatch(name, curves[1..]);
    } else {
      SingleMatch(name, curves[1..], k - 1);
    }
  }

  lemma {:induction false} NoMatch(name: string, curves: seq<Curve>)
    requires forall i :: 0 <= i < |curves| ==> curves[i].name != name
    ensures Matching(name, curves) == []
  {
    if curves != [] {
      NoMatch(name, curves[1..]);
    }
  }

  // ---------------------------------------------------------- curve groups

  /** A curve of some simulation, paired with that simulation's name. */
  datatype CurveItem = CurveItem(simName: string, crvObj: Curve)

  /** The curves of one simulation, in order, each paired with the simulation's name. */
  function ItemsOf(s: Simulation): seq<CurveItem> {
    seq(|s.curves|, j requires 0 <= j < |s.curves| => CurveItem(s.name, s.curves[j]))
  }

  /** The curves of all simulations, simulation by simulation and curve by curve. */
  function CurveItems(sims: seq<Simulation>): seq<CurveItem> {
    if sims == [] then [] else CurveItems(sims[..|sims| - 1]) + ItemsOf(sims[|sims| - 1])
  }

  /** The chart of all curves sharing one name across the simulations. */
  datatype ComparisonCurve = ComparisonCurve(curveName: string, singleCurves: seq<CurveItem>, picture: string)

  /** A loadcase: its targets, the selected simulations and the comparison charts. */
  datatype Loadcase = Loadcase(
    id: string, url: string, simulations: seq<Simulation>, targets: seq<Target>, comparisonCurves: seq<ComparisonCurve>)

  /** The curve objects of all simulations. */
  ghost function CurvesOf(sims: seq<Simulation>): set<Curve> {
    set s, c | s in sims && c in s.curves :: c
  }


  /** The names of the curves among `items`. */
  ghost function NamesOf(items: seq<CurveItem>): set<string> {
    set i | 0 <= i < |items| :: items[i].crvObj.name
  }

  /** The items whose curve is named `key`, in their order. */
  function WithName(items: seq<CurveItem>, key: string): seq<CurveItem> {
    if items == [] then []
    else
      var last := items[|items| - 1];
      WithName(items[..|items| - 1], key) + (if last.crvObj.name == key then [last] else [])
  }

  /** The position of the first item whose curve is named `n`. */
  ghost function FirstIndex(items: seq<CurveItem>, n: string): (k: nat)
    requires n in NamesOf(items)
    ensures k < |items| && items[k].crvObj.name == n
    ensures forall q :: 0 <= q < k ==> items[q].crvObj.name != n
  {
    var prefix := items[..|items| - 1];
    NamesOfStep(items);
    if n in NamesOf(prefix) then
      var k := FirstIndex(prefix, n);
      assert items[k] == prefix[k];
      assert forall q :: 0 <= q < k ==> items[q] == prefix[q];
      k
    else
      assert forall q :: 0 <= q < |prefix| ==> prefix[q].crvObj.name in NamesOf(prefix);
      assert forall q :: 0 <= q < |prefix| ==> items[q] == prefix[q];
      |items| - 1
  }

  /** `names` lists each curve name of `items` once, ordered by where the name first occurs. */
  ghost predicate InFirstOccurrenceOrder(items: seq<CurveItem>, names: seq<string>) {
    && (forall n :: n in names <==> n in NamesOf(items))
    && (forall i, j :: 0 <= i < j < |names| ==>
          && names[i] in NamesOf(items) && names[j] in NamesOf(items)
          && FirstIndex(items, names[i]) < FirstIndex(items, names[j]))
  }

  /** The properties of `Object.prototype`: every JavaScript object answers `in` for these
      names before it has any key of its own. */
  const InheritedNames: set<string> := {
    "constructor", "__proto__", "hasOwnProperty", "isPrototypeOf", "propertyIsEnumerable",
    "toString", "toLocaleString", "valueOf",
    "__defineGetter__", "__defineSetter__", "__lookupGetter__", "__lookupSetter__"}

  /** A JavaScript object used as a dictionary of curve groups: its own keys in insertion
      order, which is the order `Object.keys` lists names that are not integer-like, and the
      group under each key. */
  datatype CurveGroups = CurveGroups(names: seq<string>, groups: map<string, seq<CurveItem>>)

  /** Files one more item under its curve's name, opening the group (and adding the key at the
      end of the key order) when the name is new. */
  function File(g: CurveGroups, item: CurveItem): CurveGroups {
    var key := item.crvObj.name;
    if key in g.groups then CurveGroups(g.names, g.groups[key := g.groups[key] + [item]])
    else CurveGroups(g.names + [key], g.groups[key := [item]])
  }

  /** The groups after filing `items` one by one into an empty object. */
  function Grouped(items: seq<CurveItem>): CurveGroups {
    if items == [] then CurveGroups([], map[]) else File(Grouped(items[..|items| - 1]), items[|items| - 1])
  }

  /** No curve among `items` has a name the empty object already answers `in` for. */
  ghost predicate NoInheritedName(items: seq<CurveItem>) {
    forall i :: 0 <= i < |items| ==> items[i].crvObj.name !in InheritedNames
  }

  /** Opening the group if it is missing and then appending to it is filing. */
  lemma FiledInPlace(before: CurveGroups, item: CurveItem, after: CurveGroups)
    requires var key := item.crvObj.name;
      var ready := if key in before.groups then before
                   else CurveGroups(before.names + [key], before.groups[key := []]);
      after == CurveGroups(ready.names, ready.groups[key := ready.groups[key] + [item]])
    ensures after == File(before, item)
  {
    var key := item.crvObj.name;
    if key !in before.groups {
      assert [] + [item] == [item];
      assert before.groups[key := []][key := [item]] == before.groups[key := [item]];
    }
  }

  lemma ItemsStep(done: seq<CurveItem>, s: Simulation, j: nat)
    requires j < |s.curves|
    ensures done + ItemsOf(s)[..j + 1] == (done + ItemsOf(s)[..j]) + [CurveItem(s.name, s.curves[j])]
    ensures Grouped(done + ItemsOf(s)[..j + 1]) == File(Grouped(done + ItemsOf(s)[..j]), CurveItem(s.name, s.curves[j]))
  {
    var items := done + ItemsOf(s)[..j];
    assert done + ItemsOf(s)[..j + 1] == items + [CurveItem(s.name, s.curves[j])];
    assert (items + [CurveItem(s.name, s.curves[j])])[..|items|] == items;
  }

  lemma CurveItemsStep(sims: seq<Simulation>, i: nat)
    requires i < |sims|
    ensures CurveItems(sims[..i + 1]) == CurveItems(sims[..i]) + ItemsOf(sims[i])
  {
    assert sims[..i + 1][..i] == sims[..i];
  }

  /** Curve `j` of simulation `i` is among the curves of all simulations. */
  lemma {:induction false} ItemIncluded(sims: seq<Simulation>, i: nat, j: nat)
    requires i < |sims| && j < |sims[i].curves|
    ensures CurveItem(sims[i].name, sims[i].curves[j]) in CurveItems(sims)
  {
    var prefix := sims[..|sims| - 1];
    if i < |prefix| {
      assert prefix[i] == sims[i];
      ItemIncluded(prefix, i, j);
    } else {
      assert ItemsOf(sims[i])[j] == CurveItem(sims[i].name, sims[i].curves[j]);
    }
  }

  /** The names of a non-empty sequence are those of all items but the last, plus the last's. */
  lemma NamesOfStep(items: seq<CurveItem>)
    requires items != []
    ensures NamesOf(items) == NamesOf(items[..|items| - 1]) + {items[|items| - 1].crvObj.name}
  {
    var prefix, last := items[..|items| - 1], items[|items| - 1];
    forall name | name in NamesOf(items) ensures name in NamesOf(prefix) + {last.crvObj.name} {
      var i :| 0 <= i < |items| && items[i].crvObj.name == name;
      if i < |prefix| {
        assert prefix[i] == items[i];
      }
    }
    forall name | name in NamesOf(prefix) ensures name in NamesOf(items) {
      var i :| 0 <= i < |prefix| && prefix[i].crvObj.name == name;
      assert items[i] == prefix[i];
    }
    assert items[|items| - 1].crvObj.name in NamesOf(items);
  }

  /** Filing one by one gives one group per curve name, holding exactly the items with that
      name in their order. */
  lemma {:induction false} GroupedByName(items: seq<CurveItem>)
    ensures Grouped(items).groups.Keys == NamesOf(items)
    ensures forall key :: key in Grouped(items).groups ==> Grouped(items).groups[key] == WithName(items, key)
  {
    if items != [] {
      var prefix, last := items[..|items| - 1], items[|items| - 1];
      GroupedByName(prefix);
      NamesOfStep(items);
      forall key | key in Grouped(items).groups
        ensures Grouped(items).groups[key] == WithName(items, key)
      {
        if key != last.crvObj.name {
          assert key in Grouped(prefix).groups;
        } else if key !in Grouped(prefix).groups {
          WithNameAbsent(prefix, key);
        }
      }
    }
  }

  /** The keys of the groups are listed once each, in the order their names first occur. */
  lemma {:induction false} GroupedInFirstOccurrenceOrder(items: seq<CurveItem>)
    ensures InFirstOccurrenceOrder(items, Grouped(items).names)
  {
    if items != [] {
      var prefix, last := items[..|items| - 1], items[|items| - 1];
      GroupedInFirstOccurrenceOrder(prefix);
      GroupedByName(prefix);
      NamesOfStep(items);
      var before, names := Grouped(prefix).names, Grouped(items).names;
      forall n | n in NamesOf(prefix) ensures FirstIndex(items, n) == FirstIndex(prefix, n) {
      }
      if last.crvObj.name !in NamesOf(prefix) {
        assert names == before + [last.crvObj.name];
        assert FirstIndex(items, last.crvObj.name) == |prefix|;
        forall i, j | 0 <= i < j < |names|
          ensures && names[i] in NamesOf(items) && names[j] in NamesOf(items)
                  && FirstIndex(items, names[i]) < FirstIndex(items, names[j])
        {
          assert names[i] == before[i];
          if j < |before| {
            assert names[j] == before[j];
          }
        }
      }
    }
  }

  lemma {:induction false} WithNameAbsent(items: seq<CurveItem>, key: string)
    requires key !in NamesOf(items)
    ensures WithName(items, key) == []
  {
    if items != [] {
      NamesOfStep(items);
      WithNameAbsent(items[..|items| - 1], key);
    }
  }

  /** Each item is kept under its own name as many times as it occurs, so every curve of
      every simulation lands in its group exactly once. */
  lemma {:induction false} WithNameKeepsCount(items: seq<CurveItem>, item: CurveItem)
    ensures multiset(WithName(items, item.crvObj.name))[item] == multiset(items)[item]
  {
    if items != [] {
      var prefix, last := items[..|items| - 1], items[|items| - 1];
      WithNameKeepsCount(prefix, item);
      assert items == prefix + [last];
    }
  }

  lemma NoInheritedNameStep(items: seq<CurveItem>, item: CurveItem)
    requires NoInheritedName(items) && item.crvObj.name !in InheritedNames
    ensures NoInheritedName(items + [item])
  {
    var grown := items + [item];
    forall i | 0 <= i < |grown| ensures grown[i].crvObj.name !in InheritedNames {
      if i < |items| {
        assert grown[i] == items[i];
      }
    }
  }

  /** No own key of the object is the name of an inherited property. */
  ghost predicate OwnKeysOnly(g: CurveGroups) {
    forall key :: key in g.groups ==> key !in InheritedNames
  }

  /**
   * `getAllCurvesNames`: the curves of all simulations grouped by name in a fresh object.
   * There is one group per curve name, holding the curves with that name, each with its
   * simulation's name, in simulation order and then curve order; the keys are in the order
   * the names first occur. A curve named like a property of `Object.prototype` passes the
   * `in` test without a group of its own, and pushing onto the inherited value throws.
   */
  method GetAllCurvesNames(simulations: seq<Simulation>) returns (allCurveNames: Result<CurveGroups>)
    ensures allCurveNames.Failure? <==> !NoInheritedName(CurveItems(simulations))
    ensures allCurveNames.Success? ==>
      var g, items := allCurveNames.value, CurveItems(simulations);
      && g.groups.Keys == NamesOf(items)
      && (forall key :: key in g.groups ==> g.groups[key] == WithName(items, key))
      && InFirstOccurrenceOrder(items, g.names)
  {
    var groups := CurveGroups([], map[]);
    var i := 0;
    while i < |simulations|
      invariant 0 <= i <= |simulations|
      invariant groups == Grouped(CurveItems(simulations[..i]))
      invariant NoInheritedName(CurveItems(simulations[..i]))
      invariant OwnKeysOnly(groups)
    {
      var filed := FileCurves(groups, CurveItems(simulations[..i]), simulations[i]);
      if filed.Failure? {
        var j :| 0 <= j < |simulations[i].curves| && simulations[i].curves[j].name in InheritedNames;
        ItemIncluded(simulations, i, j);
        return Failure(filed.error);
      }
      groups := filed.value;
      CurveItemsStep(simulations, i);
      i := i + 1;
    }
    assert simulations[..i] == simulations;
    GroupedByName(CurveItems(simulations));
    GroupedInFirstOccurrenceOrder(CurveItems(simulations));
    allCurveNames := Success(groups);
  }

  /** The inner loop of `getAllCurvesNames`: files the curves of `s`, in order, into the
      groups of the items `done`; it throws at the first curve named like an inherited
      property. */
  method FileCurves(groups: CurveGroups, ghost done: seq<CurveItem>, s: Simulation)
    returns (filed: Result<CurveGroups>)
    requires groups == Grouped(done) && NoInheritedName(done) && OwnKeysOnly(groups)
    ensures filed.Failure? ==> exists j :: 0 <= j < |s.curves| && s.curves[j].name in InheritedNames
    ensures filed.Failure? ==> filed.error == "TypeError: allCurveNames[key].push is not a function"
    ensures filed.Success? ==> && filed.value == Grouped(done + ItemsOf(s))
                               && NoInheritedName(done + ItemsOf(s)) && OwnKeysOnly(filed.value)
  {
    var g := groups;
    var j := 0;
    assert done + ItemsOf(s)[..j] == done;
    while j < |s.curves|
      invariant 0 <= j <= |s.curves|
      invariant g == Grouped(done + ItemsOf(s)[..j])
      invariant NoInheritedName(done + ItemsOf(s)[..j])
      invariant OwnKeysOnly(g)
    {
      ghost var before := g;
      var c := s.curves[j];
      var key := c.name;
      if !(key in g.groups || key in InheritedNames) {
        g := CurveGroups(g.names + [key], g.groups[key := []]);
      }
      if key !in g.groups {
        assert s.curves[j].name in InheritedNames;
        return Failure("TypeError: allCurveNames[key].push is not a function");
      }
      var item := CurveItem(s.name, c);
      g := CurveGroups(g.names, g.groups[key := g.groups[key] + [item]]);
      FiledInPlace(before, item, g);
      ItemsStep(done, s, j);
      NoInheritedNameStep(done + ItemsOf(s)[..j], item);
      j := j + 1;
    }
    assert ItemsOf(s)[..j] == ItemsOf(s);
    filed := Success(g);
  }
}
