# Case evaluation of the VIKTOR demo app, in Dafny

This project models the calculation behind the "Results" view of the demo
application (`MyEntityType.plotly_and_data_view` in `app.py`) and the colour
helper `get_color`. Each entry of the "Cases" array has a volume, a density
and a norm A, B or C. For each case the view does four things:
- it looks up the norm's maximum mass (500, 750 or 1000);
- it computes the mass, either locally as volume times density or through the
  spreadsheet calculation service;
- it forms the unity check, the mass as a percentage of that maximum;
- it classifies the case as an error (red) above 100 %, a warning (orange)
  above 80 % and a success (green) otherwise.

Every case gives one bar of a chart labelled "Case i" and one data item. An
empty list of cases is refused with the message "Add at least 1 case.". A
failing spreadsheet calculation aborts the whole view.

Modules:
- `Errors`: `Option`, `Result` and the three failures: `ValueError`,
  `UserError` and `CalculationServiceError`.
- `Labels`: the decimal text in `f"Case {i}"` and in the `get_color` message,
  with a parser as its inverse.
- `Colors`: `get_color`.
- `Norms`: the norm enumeration and its maximum masses.
- `Mass`: the two mass strategies. `Delegated` carries the spreadsheet as a
  function that may return nothing.
- `CaseEvaluation`: the unity check, the classification and the evaluation of
  one case.
- `BatchEvaluation`: the loop over the cases (`PlotlyAndDataView`). It takes
  the spreadsheet switch and the sheet and is proved equal to the
  specification function `Results` for the strategy the switch selects.
  Lemmas about `Results` state alignment, errors and substitutability.

The application checks for an empty case list after the loop
(`app.py:403-406`), not before it. The model does the same. Since the loop
does nothing on an empty list, the outcome is the same as checking first.

## Model

| member | source | states |
|---|---|---|
| `Colors.GetColor` | app.py:32-40 | fails with a ValueError exactly when the value is below 0 or above 100; otherwise green is 255, blue is 0 and red is the value scaled to 0..255 and truncated (red*100 <= value*255 < (red+1)*100) |
| `Colors.GetColorEnds` | app.py:40 | value 0 gives (0, 255, 0) and value 100 gives (255, 255, 0) |
| `Colors.GetColorMonotone` | app.py:40 | a larger valid value never gives less red |
| `Colors.LegendNeverFails` | app.py:307 | the legend's calls on 0, 10, ..., 100 never raise |
| `Labels.IntToString` | app.py:38 | the text of the value in the error message starts with '-' exactly for negative values, its digits read back as the value's magnitude, and the magnitude has no leading zero, so it is exactly the text the f-string prints |
| `Labels.NatToString` | app.py:389 | the text of a number is a non-empty string of decimal digits without a leading zero |
| `Labels.ParseNatToString` | app.py:389 | reading the decimal text of n back gives n |
| `Labels.CaseLabel` | app.py:402 | the label is "Case " followed by the digits of i without a leading zero, which read back as i |
| `Labels.CaseLabelsDistinct` | app.py:402 | different case numbers get different labels |
| `BatchEvaluation.CaseLabels` | app.py:402 | the x axis for n cases has n labels, no two of them equal |
| `BatchEvaluation.Unzip` | app.py:404 | taking the chart points apart gives equally many heights and colours, and zipping them back gives the points again |
| `Norms.MaxMass` | app.py:358-365 | every norm has a positive maximum mass taken from the three constants; no norm falls through to the unreachable branch |
| `Norms.MaxMassOrdered` | app.py:26-28 | A (500) < B (750) < C (1000) |
| `Mass.StrategyFor` | app.py:367 | the spreadsheet switch selects the delegated strategy, with the configured sheet, exactly when it is on |
| `Mass.ComputeMass` | app.py:367-372 | local mass is exactly volume * density; delegated mass fails exactly when the sheet fails and is otherwise the sheet's answer; the only failure is CalculationServiceError |
| `Mass.DelegatedSubstitutable` | app.py:367-372 | a sheet that multiplies gives the same mass as the local formula |
| `CaseEvaluation.Status.ColorToken` | app.py:376-384 | every status maps to one of "green", "orange", "red" |
| `CaseEvaluation.ColorTokenRoundTrip` | app.py:376-384 | the colour token determines the status, so status and colour always agree |
| `CaseEvaluation.UnityCheck` | app.py:374 | unity check times maximum equals mass times 100; it exceeds 100 exactly when the mass exceeds the maximum and 80 exactly when the mass exceeds four fifths of it |
| `CaseEvaluation.Classify` | app.py:376-384 | Error exactly above 100, Warning exactly in (80, 100], Success exactly at or below 80 |
| `CaseEvaluation.ClassifyBoundaries` | app.py:376-384 | exactly 100 is a Warning, exactly 80 a Success, anything above 100 an Error |
| `CaseEvaluation.EvaluateCase` | app.py:358-384 | succeeds exactly when the mass computation does; the mass is the strategy's mass; the status is Error exactly when the mass exceeds the norm's maximum, Warning when it exceeds four fifths of it but not the maximum, Success otherwise |
| `CaseEvaluation.EvaluateCaseExamples` | app.py:358-384 | 0.3 m3 at 1000 kg/m3 under A is 60 % Success; 0.8 m3 is 160 % Error; 0.5 m3 at 900 kg/m3 under B is 60 % Success |
| `CaseEvaluation.EvaluateCaseSubstitutable` | app.py:367-384 | with a multiplying sheet the delegated strategy gives the same case result as the local one |
| `BatchEvaluation.EvaluateCases` | app.py:357-386 | succeeds exactly when every case succeeds; then it has one result per case, in input order, each equal to that case's own evaluation; any failure is CalculationServiceError |
| `BatchEvaluation.PlotlyAndDataView` | app.py:356-414 | the loop's result equals `Results` for the strategy that the spreadsheet switch selects: one chart point and one data item per processed case, an early abort on a failed calculation, and the user error on an empty list |
| `BatchEvaluation.ResultsAligned` | app.py:386-402 | on success the labels, heights, colours and data items each number one per case; entry k is "Case k+1" with case k's unity check, status and status colour, and data item k shows case k's volume, density, norm and mass |
| `BatchEvaluation.ResultsErrors` | app.py:403-406 | the view fails exactly when the list is empty or some case's calculation fails; an empty list gives "Add at least 1 case.", otherwise the failure is CalculationServiceError, with no partial result |
| `BatchEvaluation.LocalResultsFailOnlyWhenEmpty` | app.py:370-372 | with the local formula the view succeeds exactly on a non-empty list |
| `BatchEvaluation.SwitchOffFailsOnlyWhenEmpty` | app.py:367-372 | with the spreadsheet switch off the view succeeds exactly on a non-empty list, whatever sheet is configured |
| `BatchEvaluation.SwitchSubstitutable` | app.py:367-372 | with the switch on, a sheet that multiplies gives the same view as with the switch off |
| `BatchEvaluation.ResultsSubstitutable` | app.py:367-372 | with a multiplying sheet the delegated strategy gives the same view as the local one |

## Left out

- Floating point: volumes, densities, masses and unity checks are exact reals, so IEEE-754 rounding at the 80 % and 100 % boundaries is not modelled. `get_color`'s `int(value / 100 * 255)` is modelled as the exact floor `value * 255 / 100`.
- The spreadsheet service (`calculate_mass_from_spreadsheet`, app.py:43-56) is an uninterpreted function from volume and density to an optional mass. Its file path, named cells and the kinds of exception it raises are not modelled; every failure becomes CalculationServiceError.
- The `raise NotImplementedError` branch for an unknown norm (app.py:364-365) cannot be written down, because `Norm` is a closed type with exactly A, B and C.
- Empty input fields are not modelled. A cleared Volume or Density field reaches the evaluation as `None` (the application notes this for its Measurement field at app.py:119-120), and `case.volume * case.density` at app.py:372 then raises a TypeError that aborts the whole view. `Case` holds only reals, so this abort has no counterpart in the model.
- The input field limits (volume 0.1..1, density an integer 0..3000, measurement 0..100) belong to the user interface. The evaluation does not check them, so the model accepts any reals. Density is a real rather than an integer.
- The Plotly figure layout, the chart title, the suffixes and `number_of_decimals` of the data items, and the grouping into `DataGroup`: presentation only.
- The map view (apart from its calls to `get_color`), the geometry view, the Word and PDF reports, the parametrization and `initial_entities`: user-interface, geometry and file glue with no evaluation logic.
