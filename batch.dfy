/** The "Results" view: every case is evaluated in input order into one bar
    of a chart and one data item; an empty list of cases is refused. */
module BatchEvaluation {
  import opened Errors
  import opened Norms
  import opened Mass
  import opened CaseEvaluation
  import opened Labels

  const EmptyCasesMessage: string := "Add at least 1 case."

  /** One entry of the data view: the case's label and unity check, with the
      inputs and the mass shown beneath it. */
  datatype DataItem = DataItem(
    caption: string, unityCheck: real, status: Status,
    volume: real, density: real, mass: real, norm: Norm)

  /** A bar chart: one label, one height and one bar colour per case. */
  datatype BarChart = BarChart(x: seq<string>, y: seq<real>, colors: seq<string>)

  datatype ResultsView = ResultsView(chart: BarChart, data: seq<DataItem>)

  /** Evaluates the cases in order; the first failing case aborts the whole
      evaluation, so there is a result for every case or none at all. */
  function EvaluateCases(cases: seq<Case>, strategy: Strategy): (r: Result<seq<CaseResult>>)
    ensures r.Ok? <==> forall k :: 0 <= k < |cases| ==> EvaluateCase(cases[k], strategy).Ok?
    ensures r.Err? ==> r.error == CalculationServiceError
    ensures r.Ok? ==> |r.value| == |cases|
    ensures r.Ok? ==> forall k :: 0 <= k < |cases| ==> r.value[k] == EvaluateCase(cases[k], strategy).value
    decreases |cases|
  {
    if cases == [] then Ok([])
    else
      var init := cases[..|cases| - 1];
      match EvaluateCases(init, strategy)
      case Err(e) => Err(e)
      case Ok(done) =>
        match EvaluateCase(cases[|cases| - 1], strategy)
        case Err(e) => Err(e)
        case Ok(last) => Ok(done + [last])
  }

  /** What the Results view shows for the given cases and strategy. */
  function Results(cases: seq<Case>, strategy: Strategy): (r: Result<ResultsView>)
  {
    match EvaluateCases(cases, strategy)
    case Err(e) => Err(e)
    case Ok(results) =>
      if results == [] then Err(UserError(EmptyCasesMessage))
      else Ok(ResultsView(ChartOf(results), DataOf(cases, results)))
  }

  /** The chart point of one case: its unity check and its status colour. */
  function GraphPoint(res: CaseResult): (point: (real, string)) {
    (res.unityCheck, res.status.ColorToken())
  }

  /** The chart points of the evaluated cases, in order. */
  function Points(results: seq<CaseResult>): (points: seq<(real, string)>) {
    seq(|results|, k requires 0 <= k < |results| => GraphPoint(results[k]))
  }

  /** The x axis: "Case 1" up to "Case n", no two bars with the same label. */
  function CaseLabels(n: nat): (xs: seq<string>)
    ensures |xs| == n
    ensures forall j, k :: 0 <= j < k < n ==> xs[j] != xs[k]
  {
    var xs := seq(n, k requires 0 <= k < n => CaseLabel(k + 1));
    forall j, k | 0 <= j < k < n ensures xs[j] != xs[k] {
      CaseLabelsDistinct(j + 1, k + 1);
    }
    xs
  }

  /** Pairs up bar heights and bar colours. */
  function Zip(ys: seq<real>, cs: seq<string>): (points: seq<(real, string)>)
    requires |ys| == |cs|
  {
    seq(|ys|, k requires 0 <= k < |ys| => (ys[k], cs[k]))
  }

  /** Takes the chart points apart into bar heights and bar colours; zipping
      the two back together gives the points again. */
  function Unzip(points: seq<(real, string)>): (yc: (seq<real>, seq<string>))
    ensures |yc.0| == |yc.1| == |points|
    ensures Zip(yc.0, yc.1) == points
  {
    var ys := seq(|points|, k requires 0 <= k < |points| => points[k].0);
    var cs := seq(|points|, k requires 0 <= k < |points| => points[k].1);
    assert Zip(ys, cs) == points;
    (ys, cs)
  }

  /** One bar per result: "Case k+1", its unity check, its status colour. */
  function ChartOf(results: seq<CaseResult>): (chart: BarChart) {
    var yc := Unzip(Points(results));
    BarChart(CaseLabels(|results|), yc.0, yc.1)
  }

  /** The data items of the first |results| cases, each paired with its result. */
  function DataOf(cases: seq<Case>, results: seq<CaseResult>): (items: seq<DataItem>)
    requires |results| <= |cases|
  {
    seq(|results|, k requires 0 <= k < |results| =>
      DataItem(CaseLabel(k + 1), results[k].unityCheck, results[k].status,
               cases[k].volume, cases[k].density, results[k].mass, cases[k].norm))
  }

  /** Runs the evaluation loop: for each case, look up the norm's maximum,
      compute the mass with the chosen strategy, form the unity check and
      classify it, appending one chart point and one data item. */
  method PlotlyAndDataView(cases: seq<Case>, spreadsheet: bool, sheet: Sheet) returns (r: Result<ResultsView>)
    ensures r == Results(cases, StrategyFor(spreadsheet, sheet))
  {
    var strategy := StrategyFor(spreadsheet, sheet);
    var graphData: seq<(real, string)> := [];
    var dataItems: seq<DataItem> := [];
    ghost var results: seq<CaseResult> := [];
    var i := 0;
    while i < |cases|
      invariant Processed(cases, strategy, i, graphData, dataItems, results)
    {
      var c := cases[i];
      var maxMass := MaxMass(c.norm);
      var computed := ComputeMass(strategy, c.volume, c.density);
      if computed.Err? {
        AbortMatchesResults(cases, strategy, i);
        return Err(computed.error);
      }
      var mass := computed.value;
      var unityCheck := UnityCheck(mass, maxMass);
      var status := Classify(unityCheck);
      ghost var res := CaseResult(mass, unityCheck, status);
      assert EvaluateCase(c, strategy) == Ok(res);
      ProcessedNext(cases, strategy, i, graphData, dataItems, results, res);
      graphData := graphData + [(unityCheck, status.ColorToken())];
      dataItems := dataItems + [DataItem(CaseLabel(i + 1), unityCheck, status, c.volume, c.density, mass, c.norm)];
      results := results + [res];
      i := i + 1;
    }

    var x := CaseLabels(|graphData|);
    if graphData == [] {
      return Err(UserError(EmptyCasesMessage));
    }
    var yc := Unzip(graphData);
    var y, colors := yc.0, yc.1;
    r := Ok(ResultsView(BarChart(x, y, colors), dataItems));
    ProcessedAll(cases, strategy, graphData, dataItems, results);
  }

  /** The loop invariant: the first `i` cases have been evaluated without
      failure into `results`, which gave the chart points and data items so far. */
  ghost predicate Processed(cases: seq<Case>, strategy: Strategy, i: int,
                            graphData: seq<(real, string)>, dataItems: seq<DataItem>,
                            results: seq<CaseResult>)
  {
    0 <= i <= |cases| && |results| == i &&
    (forall k :: 0 <= k < i ==> EvaluateCase(cases[k], strategy) == Ok(results[k])) &&
    graphData == Points(results) && dataItems == DataOf(cases, results)
  }

  lemma ProcessedNext(cases: seq<Case>, strategy: Strategy, i: int,
                      graphData: seq<(real, string)>, dataItems: seq<DataItem>,
                      results: seq<CaseResult>, res: CaseResult)
    requires Processed(cases, strategy, i, graphData, dataItems, results)
    requires i < |cases| && EvaluateCase(cases[i], strategy) == Ok(res)
    ensures Processed(cases, strategy, i + 1, graphData + [GraphPoint(res)],
                      dataItems + [DataItem(CaseLabel(i + 1), res.unityCheck, res.status,
                                            cases[i].volume, cases[i].density, res.mass, cases[i].norm)],
                      results + [res])
  {
    assert Points(results + [res]) == Points(results) + [GraphPoint(res)];
    assert DataOf(cases, results + [res]) == DataOf(cases, results) +
      [DataItem(CaseLabel(i + 1), res.unityCheck, res.status,
                cases[i].volume, cases[i].density, res.mass, cases[i].norm)];
  }

  /** A case whose calculation fails makes the whole view fail. */
  lemma AbortMatchesResults(cases: seq<Case>, strategy: Strategy, i: int)
    requires 0 <= i < |cases| && EvaluateCase(cases[i], strategy).Err?
    ensures Results(cases, strategy) == Err(CalculationServiceError)
  {
  }

  /** A loop that processed every case of a non-empty list built the view of `Results`. */
  lemma ProcessedAll(cases: seq<Case>, strategy: Strategy,
                     graphData: seq<(real, string)>, dataItems: seq<DataItem>,
                     results: seq<CaseResult>)
    requires Processed(cases, strategy, |cases|, graphData, dataItems, results) && cases != []
    ensures Results(cases, strategy) ==
      Ok(ResultsView(BarChart(CaseLabels(|graphData|), Unzip(graphData).0, Unzip(graphData).1), dataItems))
  {
    ProcessedResults(cases, strategy, graphData, dataItems, results);
  }

  lemma ProcessedResults(cases: seq<Case>, strategy: Strategy,
                         graphData: seq<(real, string)>, dataItems: seq<DataItem>,
                         results: seq<CaseResult>)
    requires Processed(cases, strategy, |cases|, graphData, dataItems, results)
    ensures EvaluateCases(cases, strategy) == Ok(results)
  {
    assert forall k :: 0 <= k < |cases| ==> EvaluateCase(cases[k], strategy).Ok?;
    var evaluated := EvaluateCases(cases, strategy).value;
    assert forall k :: 0 <= k < |cases| ==> evaluated[k] == results[k];
    assert evaluated == results;
  }

  /** An evaluation that succeeds has exactly one bar and one data item per
      case, in input order, labelled "Case 1" to "Case n". */
  lemma ResultsAligned(cases: seq<Case>, strategy: Strategy, k: nat)
    requires Results(cases, strategy).Ok?
    requires k < |cases|
    ensures var view := Results(cases, strategy).value;
      |view.chart.x| == |view.chart.y| == |view.chart.colors| == |view.data| == |cases| &&
      view.chart.x[k] == view.data[k].caption == CaseLabel(k + 1) &&
      EvaluateCase(cases[k], strategy).Ok? &&
      view.chart.y[k] == view.data[k].unityCheck == EvaluateCase(cases[k], strategy).value.unityCheck &&
      view.chart.colors[k] == view.data[k].status.ColorToken() &&
      view.data[k].status == EvaluateCase(cases[k], strategy).value.status &&
      view.data[k].volume == cases[k].volume &&
      view.data[k].density == cases[k].density &&
      view.data[k].norm == cases[k].norm &&
      view.data[k].mass == EvaluateCase(cases[k], strategy).value.mass
  {
  }

  /** The evaluation fails exactly when there is no case or some case's
      delegated calculation fails; an empty list gets the user message. */
  lemma ResultsErrors(cases: seq<Case>, strategy: Strategy)
    ensures Results(cases, strategy).Err? <==>
      cases == [] || exists k :: 0 <= k < |cases| && EvaluateCase(cases[k], strategy).Err?
    ensures cases == [] ==> Results(cases, strategy) == Err(UserError(EmptyCasesMessage))
    ensures cases != [] && Results(cases, strategy).Err? ==>
      Results(cases, strategy) == Err(CalculationServiceError)
  {
  }

  /** With the local formula nothing but an empty list can fail. */
  lemma LocalResultsFailOnlyWhenEmpty(cases: seq<Case>)
    ensures Results(cases, Local).Ok? <==> cases != []
  {
    assert forall k :: 0 <= k < |cases| ==> EvaluateCase(cases[k], Local).Ok?;
  }

  /** With the spreadsheet switch off, only an empty list of cases fails,
      whatever sheet is configured. */
  lemma SwitchOffFailsOnlyWhenEmpty(cases: seq<Case>, sheet: Sheet)
    ensures Results(cases, StrategyFor(false, sheet)).Ok? <==> cases != []
  {
    LocalResultsFailOnlyWhenEmpty(cases);
  }

  /** With the switch on, a sheet that multiplies gives the same view as with
      the switch off. */
  lemma SwitchSubstitutable(cases: seq<Case>, sheet: Sheet)
    requires MultipliesLikeLocal(sheet)
    ensures Results(cases, StrategyFor(true, sheet)) == Results(cases, StrategyFor(false, sheet))
  {
    ResultsSubstitutable(cases, sheet);
  }

  /** A spreadsheet that multiplies volume by density gives the same view as
      the local formula. */
  lemma ResultsSubstitutable(cases: seq<Case>, sheet: Sheet)
    requires MultipliesLikeLocal(sheet)
    ensures Results(cases, Delegated(sheet)) == Results(cases, Local)
  {
    forall k | 0 <= k < |cases|
      ensures EvaluateCase(cases[k], Delegated(sheet)) == EvaluateCase(cases[k], Local)
    {
      EvaluateCaseSubstitutable(cases[k], sheet);
    }
    var d, l := EvaluateCases(cases, Delegated(sheet)), EvaluateCases(cases, Local);
    assert d.Ok? && l.Ok?;
    assert d.value == l.value;
  }
}
