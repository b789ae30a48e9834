/**
 * The placeholder dictionary of a report template: for a single-solver report, one text
 * per placeholder key, built from the loadcase's targets, the values, pictures, curves and
 * latest task of each simulation, and the comparison charts. Later entries overwrite
 * earlier ones with the same key, as assignments to a JavaScript object do.
 */
module Parser {
  import opened Wrappers
  import opened CurveMath
  import opened Background
  import Utils
  import Parameters
  import Placeholders

  /** The kind of report; only a single-solver report fills its placeholders. */
  datatype ReportType = SingleSolver | OtherReportType

  /** One assignment `result[key] = text`. */
  type Entry = (string, string)

  // ------------------------------------------------------------------ texts

  /** Template-literal text of a field the server may leave `null`. */
  function Text(field: Option<string>): string {
    if field.None? then "null" else field.value
  }

  /** Template-literal text of a metric; `format` prints a finite number. */
  function NumberText(n: Number, format: real -> string): string {
    match n
    case Finite(r) => format(r)
    case NaN => "NaN"
    case Infinity => "Infinity"
    case NegativeInfinity => "-Infinity"
  }

  function MetricText(metric: Option<Number>, format: real -> string): string {
    if metric.None? then "null" else NumberText(metric.value, format)
  }

  function RealMetricText(metric: Option<real>, format: real -> string): string {
    if metric.None? then "null" else format(metric.value)
  }

  /** An image tag showing `src`, half the page wide. */
  function Image(alt: string, src: string): string {
    "<img alt=\"" + alt + "\" src=\"" + src + "\" width=\"50%\">"
  }

  function Key2(a: string, b: string): string {
    a + ":" + b
  }

  function Key3(a: string, b: string, c: string): string {
    a + ":" + b + ":" + c
  }

  // -------------------------------------------------------- target entries

  /** The comparison criteria and the sign printed for each. */
  function Symbol(criterion: string): Option<string> {
    if criterion == Parameters.Eq then Some("=")
    else if criterion == Parameters.Lt then Some("<")
    else if criterion == Parameters.Le then Some("≤")
    else if criterion == Parameters.Gt then Some(">")
    else if criterion == Parameters.Ge then Some("≥")
    else None
  }

  predicate IsCriterion(criterion: string) {
    Symbol(criterion).Some? || criterion == Parameters.Tolerance || criterion == Parameters.Interval
  }

  /** The text of a target value by its criterion: a comparison sign before the value, the
      value plus or minus the tolerance, or the interval's borders; each followed by the
      dimension. An unknown criterion has no text. */
  function Rendered(v: TargetValue): (text: Option<string>)
    ensures text.Some? <==> IsCriterion(v.criterion)
  {
    var sign := Symbol(v.criterion);
    if sign.Some? then Some(sign.value + " " + Text(v.value) + " " + v.dimension)
    else if v.criterion == Parameters.Tolerance then
      Some(Text(v.value) + " ± " + Text(v.tolerance) + " " + v.dimension)
    else if v.criterion == Parameters.Interval then
      Some("[" + Text(v.left) + "; " + Text(v.right) + "] " + v.dimension)
    else None
  }

  /** A record built from a target list item is rendered from the item's own numbers: no
      field its criterion uses is ever `null`. */
  lemma RenderedRecord(item: TargetItem)
    requires IsCriterion(item.criterion)
    ensures var d, data := item.unit, item.valueData;
      Rendered(TargetRecord(item)) == Some(
        if item.criterion == Parameters.Interval then "[" + data.left + "; " + data.right + "] " + d
        else if item.criterion == Parameters.Tolerance then data.value + " ± " + data.tolerance + " " + d
        else Symbol(item.criterion).value + " " + data.value + " " + d)
  {
    assert Symbol(Parameters.Interval).None? && Symbol(Parameters.Tolerance).None?;
  }

  /** The entries of one target: its value, when its criterion is known, and its curve,
      when it has one. */
  function TargetEntries(t: Target): (es: seq<Entry>)
    ensures |es| <= 2
  {
    (if t.value.Some? && Rendered(t.value.value).Some? then
       [(Key3(Placeholders.Target, Placeholders.Value, t.value.value.name), Rendered(t.value.value).value)]
     else [])
    + (if t.curve.Some? then
         [(Key3(Placeholders.Target, Placeholders.Curve, t.curve.value.name),
           Image(t.curve.value.name, t.curve.value.picture))]
       else [])
  }

  function TargetsEntries(targets: seq<Target>): seq<Entry> {
    if targets == [] then []
    else TargetsEntries(targets[..|targets| - 1]) + TargetEntries(targets[|targets| - 1])
  }

  /** A target value's key is filled exactly when the target has a value of a known
      criterion, and a target curve's key exactly when the target has a curve. */
  lemma TargetKeys(t: Target)
    ensures var keys := set e | e in TargetEntries(t) :: e.0;
      && (t.value.Some? ==>
            (Key3(Placeholders.Target, Placeholders.Value, t.value.value.name) in keys
             <==> IsCriterion(t.value.value.criterion)))
      && (t.curve.Some? ==> Key3(Placeholders.Target, Placeholders.Curve, t.curve.value.name) in keys)
      && (t.value.None? && t.curve.None? ==> keys == {})
  {
    var es := TargetEntries(t);
    if t.value.Some? && t.curve.Some? {
      ValueAndCurveKeysDiffer(t.value.value.name, t.curve.value.name);
    }
    if t.value.Some? && Rendered(t.value.value).Some? {
      assert es[0].0 == Key3(Placeholders.Target, Placeholders.Value, t.value.value.name);
    }
    if t.curve.Some? {
      assert es[|es| - 1].0 == Key3(Placeholders.Target, Placeholders.Curve, t.curve.value.name);
    }
  }

  lemma ValueAndCurveKeysDiffer(a: string, b: string)
    ensures Key3(Placeholders.Target, Placeholders.Value, a) != Key3(Placeholders.Target, Placeholders.Curve, b)
  {
    assert Key3(Placeholders.Target, Placeholders.Value, a)[7] == 'v';
    assert Key3(Placeholders.Target, Placeholders.Curve, b)[7] == 'c';
  }

  // ---------------------------------------------------- simulation entries

  function ValueEntry(simName: string, v: Value): Entry {
    (Key3(simName, Placeholders.Value, v.name), Text(v.value) + " " + Text(v.dimension))
  }

  function ValueEntries(simName: string, values: seq<Value>): (es: seq<Entry>)
    ensures |es| == |values|
  {
    seq(|values|, i requires 0 <= i < |values| => ValueEntry(simName, values[i]))
  }

  function PictureEntry(simName: string, p: Picture): Entry {
    (Key3(simName, Placeholders.Picture, p.name), Image(p.name, p.content))
  }

  function PictureEntries(simName: string, pictures: seq<Picture>): (es: seq<Entry>)
    ensures |es| == |pictures|
  {
    seq(|pictures|, i requires 0 <= i < |pictures| => PictureEntry(simName, pictures[i]))
  }

  /** A curve's name as stored by the server, without its surrounding double quotes. */
  function Unquoted(name: string): string {
    Utils.TrimCharacters(name, {'"'})
  }

  /** The four entries of a curve: its picture and its three metrics against the target. */
  function CurveEntries(simName: string, c: Curve, format: real -> string): seq<Entry>
    reads c
  {
    var base := Key3(simName, Placeholders.Curve, Unquoted(c.name));
    var compared := base + ":" + Placeholders.CompareToTarget + ":";
    [(base, Image(c.name, c.picture)),
     (compared + Placeholders.SquaredArea, MetricText(c.relativeAreaMetric, format)),
     (compared + Placeholders.SumOfSquares, RealMetricText(c.sumOfSquaresMetric, format)),
     (compared + Placeholders.MaxDeviation, RealMetricText(c.maxDeviationMetric, format))]
  }

  function CurvesEntries(simName: string, curves: seq<Curve>, format: real -> string): seq<Entry>
    reads set c | c in curves
  {
    if curves == [] then []
    else CurvesEntries(simName, curves[..|curves| - 1], format) + CurveEntries(simName, curves[|curves| - 1], format)
  }

  /** The simulation's latest task is there but `null`: reading its cores throws. */
  predicate NullLatestTask(s: Simulation) {
    |s.tasks| > 0 && s.tasks[0].None?
  }

  /** Some simulation's latest task is `null`. */
  ghost predicate SomeNullLatestTask(sims: seq<Simulation>) {
    exists k :: 0 <= k < |sims| && NullLatestTask(sims[k])
  }

  /** The message JavaScript throws when a member of `null` is read. */
  const NullTaskError := "TypeError: Cannot read properties of null (reading 'cores')"

  /** The entries of the latest task: cores, memory in megabytes and status. */
  function TaskEntries(s: Simulation): seq<Entry> {
    if |s.tasks| == 0 || s.tasks[0].None? then []
    else
      var t := s.tasks[0].value;
      [(Key2(s.name, Placeholders.Cores), t.cores),
       (Key2(s.name, Placeholders.Memory), t.memory + " MB"),
       (Key2(s.name, Placeholders.Status), t.status)]
  }

  function SimulationEntries(s: Simulation, format: real -> string): seq<Entry>
    reads set c | c in s.curves
  {
    ValueEntries(s.name, s.values) + PictureEntries(s.name, s.pictures)
    + CurvesEntries(s.name, s.curves, format) + TaskEntries(s)
  }

  function SimulationsEntries(sims: seq<Simulation>, format: real -> string): seq<Entry>
    reads CurvesOf(sims)
  {
    if sims == [] then []
    else
      var last := sims[|sims| - 1];
      assert last in sims;
      assert forall c :: c in last.curves ==> c in CurvesOf(sims);
      SimulationsEntries(sims[..|sims| - 1], format) + SimulationEntries(last, format)
  }

  function ComparisonEntry(cc: ComparisonCurve): Entry {
    (Key2(Placeholders.ComparisonCurves, Unquoted(cc.curveName)), Image(cc.curveName, cc.picture))
  }

  function ComparisonEntries(ccs: seq<ComparisonCurve>): (es: seq<Entry>)
    ensures |es| == |ccs|
  {
    seq(|ccs|, i requires 0 <= i < |ccs| => ComparisonEntry(ccs[i]))
  }

  /** Every assignment the dictionary receives, in order. */
  function Entries(reportType: ReportType, targets: seq<Target>, sims: seq<Simulation>,
                   ccs: seq<ComparisonCurve>, format: real -> string): seq<Entry>
    reads CurvesOf(sims)
  {
    if reportType != SingleSolver then []
    else TargetsEntries(targets) + SimulationsEntries(sims, format) + ComparisonEntries(ccs)
  }

  // ------------------------------------------------------------ dictionary

  /** The dictionary `m` after the assignments `entries`, one after another. */
  function Update(m: map<string, string>, entries: seq<Entry>): map<string, string> {
    if entries == [] then m
    else
      var last := entries[|entries| - 1];
      Update(m, entries[..|entries| - 1])[last.0 := last.1]
  }

  /** The dictionary built from nothing by the assignments `entries`. */
  function Assigned(entries: seq<Entry>): map<string, string> {
    Update(map[], entries)
  }

  lemma UpdateAppend(m: map<string, string>, entries: seq<Entry>, e: Entry)
    ensures Update(m, entries + [e]) == Update(m, entries)[e.0 := e.1]
  {
    assert (entries + [e])[..|entries|] == entries;
  }

  lemma {:induction false} UpdateConcat(m: map<string, string>, first: seq<Entry>, second: seq<Entry>)
    ensures Update(m, first + second) == Update(Update(m, first), second)
  {
    if second == [] {
      assert first + second == first;
    } else {
      var prefix, last := second[..|second| - 1], second[|second| - 1];
      UpdateConcat(m, first, prefix);
      assert first + second == (first + prefix) + [last];
      UpdateAppend(m, first + prefix, last);
      assert second == prefix + [last];
      UpdateAppend(Update(m, first), prefix, last);
    }
  }

  /** The dictionary has exactly the keys that were assigned, and each key holds the text
      of its last assignment. */
  lemma {:induction false} AssignedKeepsLast(entries: seq<Entry>)
    ensures Assigned(entries).Keys == set e | e in entries :: e.0
    ensures forall i :: 0 <= i < |entries| && LastWithKey(entries, i) ==>
      Assigned(entries)[entries[i].0] == entries[i].1
  {
    if entries != [] {
      var prefix, last := entries[..|entries| - 1], entries[|entries| - 1];
      AssignedKeepsLast(prefix);
      assert entries == prefix + [last];
      assert (set e | e in entries :: e.0) == (set e | e in prefix :: e.0) + {last.0};
      forall i | 0 <= i < |entries| && LastWithKey(entries, i)
        ensures Assigned(entries)[entries[i].0] == entries[i].1
      {
        if i < |prefix| {
          assert entries[|entries| - 1].0 != entries[i].0;
          assert prefix[i] == entries[i];
          assert LastWithKey(prefix, i) by {
            forall j | i < j < |prefix| ensures prefix[j].0 != prefix[i].0 {
              assert prefix[j] == entries[j];
            }
          }
        }
      }
    }
  }

  /** No assignment after the `i`-th has the same key. */
  ghost predicate LastWithKey(entries: seq<Entry>, i: nat)
    requires i < |entries|
  {
    forall j :: i < j < |entries| ==> entries[j].0 != entries[i].0
  }

  /**
   * `#buildValidPlaceholders`: fills the dictionary target by target, then simulation by
   * simulation (values, pictures, curves, latest task), then comparison chart by comparison
   * chart; a report that is not single-solver gets an empty dictionary.
   */
  method BuildValidPlaceholders(reportType: ReportType, targets: seq<Target>, simulations: seq<Simulation>,
                                comparisonCurves: seq<ComparisonCurve>, format: real -> string)
    returns (result: Result<map<string, string>>)
    ensures result.Failure? <==> reportType == SingleSolver && SomeNullLatestTask(simulations)
    ensures result.Failure? ==> result.error == NullTaskError
    ensures result.Success? ==> result.value == Assigned(Entries(reportType, targets, simulations, comparisonCurves, format))
    ensures reportType != SingleSolver ==> result == Success(map[])
  {
    var dictionary := map[];
    if reportType == SingleSolver {
      label Start:
      var targetEntries := TargetsEntries(targets);
      var simulationEntries := SimulationsEntries(simulations, format);
      dictionary := PutTargets(dictionary, targets);
      var filled := PutSimulations(dictionary, simulations, format);
      assert unchanged@Start(CurvesOf(simulations));
      if filled.Failure? {
        return filled;
      }
      dictionary := filled.value;
      UpdateConcat(map[], targetEntries, simulationEntries);
      dictionary := PutComparisonCurves(dictionary, comparisonCurves);
      UpdateConcat(map[], targetEntries + simulationEntries, ComparisonEntries(comparisonCurves));
    }
    result := Success(dictionary);
  }

  method PutTargets(before: map<string, string>, targets: seq<Target>) returns (result: map<string, string>)
    ensures result == Update(before, TargetsEntries(targets))
  {
    result := before;
    var i := 0;
    while i < |targets|
      invariant 0 <= i <= |targets|
      invariant result == Update(before, TargetsEntries(targets[..i]))
    {
      result := PutTarget(result, targets[i]);
      UpdateConcat(before, TargetsEntries(targets[..i]), TargetEntries(targets[i]));
      assert targets[..i + 1][..i] == targets[..i];
      i := i + 1;
    }
    assert targets[..i] == targets;
  }

  /** The assignments for the simulations in order; the first simulation whose latest task
      is `null` stops the build with a `TypeError`. */
  method PutSimulations(before: map<string, string>, simulations: seq<Simulation>, format: real -> string)
    returns (result: Result<map<string, string>>)
    ensures result.Failure? <==> SomeNullLatestTask(simulations)
    ensures result.Failure? ==> result.error == NullTaskError
    ensures result.Success? ==> result.value == Update(before, SimulationsEntries(simulations, format))
  {
    var dictionary := before;
    var k := 0;
    while k < |simulations|
      invariant 0 <= k <= |simulations|
      invariant dictionary == Update(before, SimulationsEntries(simulations[..k], format))
      invariant !SomeNullLatestTask(simulations[..k])
    {
      var filled := PutNextSimulation(before, simulations, k, dictionary, format);
      if filled.Failure? {
        assert NullLatestTask(simulations[k]);
        return filled;
      }
      NoNullTaskStep(simulations, k);
      dictionary := filled.value;
      k := k + 1;
    }
    assert simulations[..k] == simulations;
    result := Success(dictionary);
  }

  lemma NoNullTaskStep(sims: seq<Simulation>, k: nat)
    requires k < |sims| && !NullLatestTask(sims[k]) && !SomeNullLatestTask(sims[..k])
    ensures !SomeNullLatestTask(sims[..k + 1])
  {
    var grown := sims[..k + 1];
    forall q | 0 <= q < |grown| ensures !NullLatestTask(grown[q]) {
      if q < k {
        assert grown[q] == sims[..k][q];
      }
    }
  }

  /** One turn of the loop over the simulations: the dictionary filled for the first `k`
      simulations, filled for simulation `k` too. */
  method PutNextSimulation(before: map<string, string>, simulations: seq<Simulation>, k: nat,
                           dictionary: map<string, string>, format: real -> string)
    returns (result: Result<map<string, string>>)
    requires k < |simulations|
    requires dictionary == Update(before, SimulationsEntries(simulations[..k], format))
    ensures result.Failure? <==> NullLatestTask(simulations[k])
    ensures result.Failure? ==> result.error == NullTaskError
    ensures result.Success? ==> result.value == Update(before, SimulationsEntries(simulations[..k + 1], format))
  {
    ghost var prefix := SimulationsEntries(simulations[..k], format);
    ghost var step := SimulationEntries(simulations[k], format);
    SimulationStep(simulations, k, format);
    UpdateConcat(before, prefix, step);
    label Before:
    result := PutSimulation(dictionary, simulations[k], format);
    assert unchanged@Before(set c | c in simulations[k].curves);
    assert unchanged@Before(CurvesOf(simulations[..k + 1]));
  }

  method PutComparisonCurves(before: map<string, string>, comparisonCurves: seq<ComparisonCurve>)
    returns (result: map<string, string>)
    ensures result == Update(before, ComparisonEntries(comparisonCurves))
  {
    result := before;
    var i := 0;
    while i < |comparisonCurves|
      invariant 0 <= i <= |comparisonCurves|
      invariant result == Update(before, ComparisonEntries(comparisonCurves[..i]))
    {
      var cc := comparisonCurves[i];
      var key := Key2(Placeholders.ComparisonCurves, Unquoted(cc.curveName));
      var text := Image(cc.curveName, cc.picture);
      result := result[key := text];
      ComparisonEntriesStep(comparisonCurves, i);
      UpdateAppend(before, ComparisonEntries(comparisonCurves[..i]), (key, text));
      i := i + 1;
    }
    assert comparisonCurves[..i] == comparisonCurves;
  }

  /** The assignments for one target: its value under its criterion, then its curve. */
  method PutTarget(before: map<string, string>, t: Target) returns (result: map<string, string>)
    ensures result == Update(before, TargetEntries(t))
  {
    result := before;
    ghost var emitted: seq<Entry> := [];
    if t.value.Some? {
      var text := Rendered(t.value.value);
      if text.Some? {
        var key := Key3(Placeholders.Target, Placeholders.Value, t.value.value.name);
        UpdateAppend(before, emitted, (key, text.value));
        result := result[key := text.value];
        emitted := emitted + [(key, text.value)];
      }
    }
    if t.curve.Some? {
      var key := Key3(Placeholders.Target, Placeholders.Curve, t.curve.value.name);
      var text := Image(t.curve.value.name, t.curve.value.picture);
      UpdateAppend(before, emitted, (key, text));
      result := result[key := text];
      emitted := emitted + [(key, text)];
    }
    assert emitted == TargetEntries(t);
  }

  /** The assignments for one simulation: values, pictures, curves, then the latest task. */
  method PutSimulation(before: map<string, string>, s: Simulation, format: real -> string)
    returns (result: Result<map<string, string>>)
    ensures result.Failure? <==> NullLatestTask(s)
    ensures result.Failure? ==> result.error == NullTaskError
    ensures result.Success? ==> result.value == Update(before, SimulationEntries(s, format))
  {
    var values := ValueEntries(s.name, s.values);
    var pictures := PictureEntries(s.name, s.pictures);
    var curves := CurvesEntries(s.name, s.curves, format);
    var dictionary := PutValues(before, s.name, s.values);
    dictionary := PutPictures(dictionary, s.name, s.pictures);
    UpdateConcat(before, values, pictures);
    label Before:
    dictionary := PutCurves(dictionary, s.name, s.curves, format);
    assert unchanged@Before(set c | c in s.curves);
    UpdateConcat(before, values + pictures, curves);
    result := PutTask(dictionary, s);
    UpdateConcat(before, values + pictures + curves, TaskEntries(s));
  }

  /** The assignments for the latest task, when the simulation has one; a latest task that
      is `null` passes the `undefined` test and reading its cores throws. */
  method PutTask(before: map<string, string>, s: Simulation) returns (result: Result<map<string, string>>)
    ensures result.Failure? <==> NullLatestTask(s)
    ensures result.Failure? ==> result.error == NullTaskError
    ensures result.Success? ==> result.value == Update(before, TaskEntries(s))
  {
    var dictionary := before;
    if |s.tasks| > 0 {
      if s.tasks[0].None? {
        return Failure(NullTaskError);
      }
      var t := s.tasks[0].value;
      var e0 := (Key2(s.name, Placeholders.Cores), t.cores);
      var e1 := (Key2(s.name, Placeholders.Memory), t.memory + " MB");
      var e2 := (Key2(s.name, Placeholders.Status), t.status);
      dictionary := dictionary[e0.0 := e0.1][e1.0 := e1.1][e2.0 := e2.1];
      UpdateAppend(before, [], e0);
      UpdateAppend(before, [e0], e1);
      UpdateAppend(before, [e0, e1], e2);
      assert [e0] == [] + [e0] && [e0, e1] == [e0] + [e1] && [e0, e1, e2] == [e0, e1] + [e2];
    }
    result := Success(dictionary);
  }

  method PutValues(before: map<string, string>, simName: string, values: seq<Value>)
    returns (result: map<string, string>)
    ensures result == Update(before, ValueEntries(simName, values))
  {
    result := before;
    var j := 0;
    while j < |values|
      invariant 0 <= j <= |values|
      invariant result == Update(before, ValueEntries(simName, values[..j]))
    {
      var v := values[j];
      var key := Key3(simName, Placeholders.Value, v.name);
      var text := Text(v.value) + " " + Text(v.dimension);
      result := result[key := text];
      ValueEntriesStep(simName, values, j);
      UpdateAppend(before, ValueEntries(simName, values[..j]), (key, text));
      j := j + 1;
    }
    assert values[..j] == values;
  }

  method PutPictures(before: map<string, string>, simName: string, pictures: seq<Picture>)
    returns (result: map<string, string>)
    ensures result == Update(before, PictureEntries(simName, pictures))
  {
    result := before;
    var j := 0;
    while j < |pictures|
      invariant 0 <= j <= |pictures|
      invariant result == Update(before, PictureEntries(simName, pictures[..j]))
    {
      var p := pictures[j];
      var key := Key3(simName, Placeholders.Picture, p.name);
      var text := Image(p.name, p.content);
      result := result[key := text];
      PictureEntriesStep(simName, pictures, j);
      UpdateAppend(before, PictureEntries(simName, pictures[..j]), (key, text));
      j := j + 1;
    }
    assert pictures[..j] == pictures;
  }

  method PutCurves(before: map<string, string>, simName: string, curves: seq<Curve>, format: real -> string)
    returns (result: map<string, string>)
    ensures result == Update(before, CurvesEntries(simName, curves, format))
  {
    result := before;
    var j := 0;
    while j < |curves|
      invariant 0 <= j <= |curves|
      invariant result == Update(before, CurvesEntries(simName, curves[..j], format))
    {
      label Before:
      result := PutCurve(result, simName, curves[j], format);
      assert unchanged@Before(set c | c in curves[..j]) && unchanged@Before(curves[j]);
      UpdateConcat(before, CurvesEntries(simName, curves[..j], format), CurveEntries(simName, curves[j], format));
      assert curves[..j + 1][..j] == curves[..j];
      j := j + 1;
    }
    assert curves[..j] == curves;
  }

  /** The four assignments for one curve: its picture and its three metrics. */
  method PutCurve(before: map<string, string>, simName: string, c: Curve, format: real -> string)
    returns (result: map<string, string>)
    ensures result == Update(before, CurveEntries(simName, c, format))
  {
    var base := Key3(simName, Placeholders.Curve, Unquoted(c.name));
    var compared := base + ":" + Placeholders.CompareToTarget + ":";
    var e0 := (base, Image(c.name, c.picture));
    var e1 := (compared + Placeholders.SquaredArea, MetricText(c.relativeAreaMetric, format));
    var e2 := (compared + Placeholders.SumOfSquares, RealMetricText(c.sumOfSquaresMetric, format));
    var e3 := (compared + Placeholders.MaxDeviation, RealMetricText(c.maxDeviationMetric, format));
    result := before[e0.0 := e0.1][e1.0 := e1.1][e2.0 := e2.1][e3.0 := e3.1];
    UpdateAppend(before, [], e0);
    UpdateAppend(before, [e0], e1);
    UpdateAppend(before, [e0, e1], e2);
    UpdateAppend(before, [e0, e1, e2], e3);
    assert [e0] == [] + [e0] && [e0, e1] == [e0] + [e1];
    assert [e0, e1, e2] == [e0, e1] + [e2] && [e0, e1, e2, e3] == [e0, e1, e2] + [e3];
  }

  lemma ValueEntriesStep(simName: string, values: seq<Value>, j: nat)
    requires j < |values|
    ensures ValueEntries(simName, values[..j + 1]) == ValueEntries(simName, values[..j]) + [ValueEntry(simName, values[j])]
  {
  }

  lemma PictureEntriesStep(simName: string, pictures: seq<Picture>, j: nat)
    requires j < |pictures|
    ensures PictureEntries(simName, pictures[..j + 1]) == PictureEntries(simName, pictures[..j]) + [PictureEntry(simName, pictures[j])]
  {
  }

  lemma ComparisonEntriesStep(ccs: seq<ComparisonCurve>, i: nat)
    requires i < |ccs|
    ensures ComparisonEntries(ccs[..i + 1]) == ComparisonEntries(ccs[..i]) + [ComparisonEntry(ccs[i])]
  {
  }

  lemma SimulationStep(sims: seq<Simulation>, k: nat, format: real -> string)
    requires k < |sims|
    ensures SimulationsEntries(sims[..k + 1], format) == SimulationsEntries(sims[..k], format) + SimulationEntries(sims[k], format)
  {
    assert sims[..k + 1][..k] == sims[..k];
  }

  // ------------------------------------------------- what the dictionary holds

  /** The keys `entries` assign. */
  ghost function KeysOf(entries: seq<Entry>): set<string> {
    set e | e in entries :: e.0
  }

  /** A curve fills four different keys — its picture and its three metrics — so none of
      its four texts overwrites another. */
  lemma CurveKeysDistinct(simName: string, c: Curve, format: real -> string)
    ensures var es := CurveEntries(simName, c, format);
      && |KeysOf(es)| == 4
      && (forall i :: 0 <= i < 4 ==> es[i].0 in Assigned(es) && Assigned(es)[es[i].0] == es[i].1)
  {
    var es := CurveEntries(simName, c, format);
    var base := Key3(simName, Placeholders.Curve, Unquoted(c.name));
    MetricKeysDistinct(base);
    AssignedFour(es);
    assert KeysOf(es) == {es[0].0, es[1].0, es[2].0, es[3].0};
  }

  /** The picture key of a curve and its three metric keys are pairwise different. */
  lemma MetricKeysDistinct(base: string)
    ensures var compared := base + ":" + Placeholders.CompareToTarget + ":";
      var asq, ssq, dev := compared + Placeholders.SquaredArea, compared + Placeholders.SumOfSquares,
                           compared + Placeholders.MaxDeviation;
      base != asq && base != ssq && base != dev && asq != ssq && asq != dev && ssq != dev
  {
    var compared := base + ":" + Placeholders.CompareToTarget + ":";
    var asq, ssq, dev := compared + Placeholders.SquaredArea, compared + Placeholders.SumOfSquares,
                         compared + Placeholders.MaxDeviation;
    assert asq[|base| + 5] == 'a' && ssq[|base| + 5] == 's' && dev[|base| + 5] == 'd';
  }

  lemma AssignedFour(es: seq<Entry>)
    requires |es| == 4
    ensures Assigned(es) == map[][es[0].0 := es[0].1][es[1].0 := es[1].1][es[2].0 := es[2].1][es[3].0 := es[3].1]
  {
    var e0, e1, e2, e3 := es[0], es[1], es[2], es[3];
    assert es == [e0, e1, e2] + [e3];
    assert [e0, e1, e2] == [e0, e1] + [e2] && [e0, e1] == [e0] + [e1] && [e0] == [] + [e0];
    UpdateAppend(map[], [], e0);
    UpdateAppend(map[], [e0], e1);
    UpdateAppend(map[], [e0, e1], e2);
    UpdateAppend(map[], [e0, e1, e2], e3);
  }

  /** Every entry of a simulation is among the entries of the simulations it belongs to. */
  lemma {:induction false} SimulationIncluded(sims: seq<Simulation>, k: nat, format: real -> string)
    requires k < |sims|
    ensures forall e :: e in SimulationEntries(sims[k], format) ==> e in SimulationsEntries(sims, format)
  {
    var prefix := sims[..|sims| - 1];
    if k < |prefix| {
      SimulationIncluded(prefix, k, format);
      assert prefix[k] == sims[k];
    }
  }

  /** Every entry of a curve is among the entries of the curves it belongs to. */
  lemma {:induction false} CurveIncluded(simName: string, curves: seq<Curve>, j: nat, format: real -> string)
    requires j < |curves|
    ensures forall e :: e in CurveEntries(simName, curves[j], format) ==> e in CurvesEntries(simName, curves, format)
  {
    var prefix := curves[..|curves| - 1];
    if j < |prefix| {
      CurveIncluded(simName, prefix, j, format);
      assert prefix[j] == curves[j];
    }
  }

  /** In a single-solver report, every value of every simulation has its key
      `<simulation>:val:<value>` in the dictionary. */
  lemma ValueKeyFilled(targets: seq<Target>, sims: seq<Simulation>, ccs: seq<ComparisonCurve>,
                       format: real -> string, k: nat, i: nat)
    requires k < |sims| && i < |sims[k].values|
    ensures Key3(sims[k].name, Placeholders.Value, sims[k].values[i].name)
      in Assigned(Entries(SingleSolver, targets, sims, ccs, format))
  {
    var s := sims[k];
    var e := ValueEntry(s.name, s.values[i]);
    assert e == ValueEntries(s.name, s.values)[i];
    assert e in SimulationEntries(s, format);
    SimulationIncluded(sims, k, format);
    var all := Entries(SingleSolver, targets, sims, ccs, format);
    assert e in all;
    AssignedKeepsLast(all);
  }

  /** In a single-solver report, every curve of every simulation has its picture key and its
      three metric keys in the dictionary. */
  lemma CurveKeysFilled(targets: seq<Target>, sims: seq<Simulation>, ccs: seq<ComparisonCurve>,
                        format: real -> string, k: nat, j: nat)
    requires k < |sims| && j < |sims[k].curves|
    ensures var base := Key3(sims[k].name, Placeholders.Curve, Unquoted(sims[k].curves[j].name));
      var compared := base + ":" + Placeholders.CompareToTarget + ":";
      var keys := Assigned(Entries(SingleSolver, targets, sims, ccs, format)).Keys;
      && base in keys
      && compared + Placeholders.SquaredArea in keys
      && compared + Placeholders.SumOfSquares in keys
      && compared + Placeholders.MaxDeviation in keys
  {
    var s := sims[k];
    var es := CurveEntries(s.name, s.curves[j], format);
    CurveIncluded(s.name, s.curves, j, format);
    SimulationIncluded(sims, k, format);
    var all := Entries(SingleSolver, targets, sims, ccs, format);
    assert es[0] in all && es[1] in all && es[2] in all && es[3] in all;
    AssignedKeepsLast(all);
  }

  /** Every key a simulation's curves fill starts with `<simulation>:crv:`. */
  lemma {:induction false} CurveKeysPrefixed(simName: string, curves: seq<Curve>, format: real -> string)
    ensures forall e :: e in CurvesEntries(simName, curves, format) ==>
      |e.0| >= |simName| + 5 && e.0[..|simName| + 5] == simName + ":" + Placeholders.Curve + ":"
  {
    if curves != [] {
      CurveKeysPrefixed(simName, curves[..|curves| - 1], format);
      var c := curves[|curves| - 1];
      var base := Key3(simName, Placeholders.Curve, Unquoted(c.name));
      assert base[..|simName| + 5] == simName + ":" + Placeholders.Curve + ":";
      forall e | e in CurveEntries(simName, c, format)
        ensures |e.0| >= |simName| + 5 && e.0[..|simName| + 5] == simName + ":" + Placeholders.Curve + ":"
      {
        assert e.0[..|base|] == base;
      }
    }
  }

  /** A simulation's cores, memory and status keys are filled exactly when its latest task is
      there and not `null`: no value, picture or curve key of the simulation can take their
      place. */
  lemma TaskKeysIffTask(s: Simulation, format: real -> string)
    ensures var keys := KeysOf(SimulationEntries(s, format));
      && (Key2(s.name, Placeholders.Cores) in keys <==> |s.tasks| > 0 && s.tasks[0].Some?)
      && (Key2(s.name, Placeholders.Memory) in keys <==> |s.tasks| > 0 && s.tasks[0].Some?)
      && (Key2(s.name, Placeholders.Status) in keys <==> |s.tasks| > 0 && s.tasks[0].Some?)
  {
    var n := |s.name|;
    var cores, memory, status := Key2(s.name, Placeholders.Cores), Key2(s.name, Placeholders.Memory), Key2(s.name, Placeholders.Status);
    assert cores[n + 1] == 'c' && cores[n + 2] == 'o' && memory[n + 1] == 'm' && status[n + 1] == 's';
    var others := ValueEntries(s.name, s.values) + PictureEntries(s.name, s.pictures) + CurvesEntries(s.name, s.curves, format);
    CurveKeysPrefixed(s.name, s.curves, format);
    forall e | e in others ensures e.0 != cores && e.0 != memory && e.0 != status {
      if e in ValueEntries(s.name, s.values) {
        var i :| 0 <= i < |s.values| && e == ValueEntries(s.name, s.values)[i];
        assert e.0[n + 1] == 'v';
      } else if e in PictureEntries(s.name, s.pictures) {
        var i :| 0 <= i < |s.pictures| && e == PictureEntries(s.name, s.pictures)[i];
        assert e.0[n + 1] == 'p';
      } else {
        assert e.0[..n + 5][n + 1] == 'c' && e.0[..n + 5][n + 2] == 'r';
      }
    }
    assert SimulationEntries(s, format) == others + TaskEntries(s);
    if |s.tasks| > 0 && s.tasks[0].Some? {
      assert TaskEntries(s)[0].0 == cores && TaskEntries(s)[1].0 == memory && TaskEntries(s)[2].0 == status;
    }
  }

  /**
   * The report parser of a loadcase. Its placeholder dictionary is built once, when the
   * parser is made; `format` is the text JavaScript prints for a finite metric.
   */
  class TemplateParser {
    const reportType: ReportType
    const reportTemplate: string
    const simulations: seq<Simulation>
    const targets: seq<Target>
    const comparisonCurves: seq<ComparisonCurve>
    const allPlaceholders: map<string, string>

    /** The object once every field is assigned. */
    constructor (reportType: ReportType, reportTemplate: string, loadcase: Loadcase,
                 allPlaceholders: map<string, string>)
      ensures this.reportType == reportType && this.reportTemplate == reportTemplate
      ensures simulations == loadcase.simulations && targets == loadcase.targets
      ensures comparisonCurves == loadcase.comparisonCurves
      ensures this.allPlaceholders == allPlaceholders
    {
      this.reportType := reportType;
      this.reportTemplate := reportTemplate;
      this.simulations := loadcase.simulations;
      this.targets := loadcase.targets;
      this.comparisonCurves := loadcase.comparisonCurves;
      this.allPlaceholders := allPlaceholders;
    }

    /** `new TemplateParser(reportType, reportTemplate, loadcase)`: copies the loadcase's
        parts and builds the dictionary, or throws what building it throws. */
    static method New(reportType: ReportType, reportTemplate: string, loadcase: Loadcase, format: real -> string)
      returns (parser: Result<TemplateParser>)
      ensures parser.Failure? <==> reportType == SingleSolver && SomeNullLatestTask(loadcase.simulations)
      ensures parser.Failure? ==> parser.error == NullTaskError
      ensures parser.Success? ==> fresh(parser.value)
      ensures parser.Success? ==> parser.value.reportType == reportType && parser.value.reportTemplate == reportTemplate
      ensures parser.Success? ==> parser.value.simulations == loadcase.simulations && parser.value.targets == loadcase.targets
      ensures parser.Success? ==> parser.value.comparisonCurves == loadcase.comparisonCurves
      ensures parser.Success? ==>
        parser.value.allPlaceholders == Assigned(Entries(reportType, loadcase.targets, loadcase.simulations, loadcase.comparisonCurves, format))
    {
      label Built:
      var placeholders := BuildValidPlaceholders(reportType, loadcase.targets, loadcase.simulations,
                                                 loadcase.comparisonCurves, format);
      if placeholders.Failure? {
        return Failure(placeholders.error);
      }
      var made := new TemplateParser(reportType, reportTemplate, loadcase, placeholders.value);
      assert unchanged@Built(CurvesOf(loadcase.simulations));
      parser := Success(made);
    }
  }
}
