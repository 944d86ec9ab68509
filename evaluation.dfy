/** Evaluation of a single case: mass, unity check against the norm's
    maximum, and the pass / warn / fail classification. */
module CaseEvaluation {
  import opened Errors
  import opened Norms
  import opened Mass

  /** One row of the "Cases" input array. */
  datatype Case = Case(volume: real, density: real, norm: Norm)

  /** The data-view status of a case, with the bar colour the chart uses for it. */
  datatype Status = Success | Warning | Error {
    function ColorToken(): (token: string)
      ensures token in {"green", "orange", "red"}
    {
      match this
      case Success => "green"
      case Warning => "orange"
      case Error => "red"
    }
  }

  /** Reads a chart colour back as the status that produced it. */
  function StatusOfToken(token: string): (s: Option<Status>)
    ensures s.Some? <==> token in {"green", "orange", "red"}
  {
    if token == "green" then Some(Success)
    else if token == "orange" then Some(Warning)
    else if token == "red" then Some(Error)
    else None
  }

  lemma ColorTokenRoundTrip(s: Status)
    ensures StatusOfToken(s.ColorToken()) == Some(s)
  {
  }

  /** The mass as a percentage of the allowed maximum. */
  function UnityCheck(mass: real, maxMass: real): (uc: real)
    requires maxMass > 0.0
    ensures uc * maxMass == mass * 100.0
    ensures uc > 100.0 <==> mass > maxMass
    ensures uc > 80.0 <==> mass * 5.0 > maxMass * 4.0
  {
    var uc := mass / maxMass * 100.0;
    ScaledComparison(uc, maxMass, mass * 100.0, 100.0);
    ScaledComparison(uc, maxMass, mass * 100.0, 80.0);
    uc
  }

  /** Multiplying both sides of `uc > t` by a positive maximum keeps the comparison. */
  lemma ScaledComparison(uc: real, maxMass: real, scaled: real, t: real)
    requires maxMass > 0.0 && uc * maxMass == scaled
    ensures uc > t <==> scaled > t * maxMass
  {
  }

  /** First match wins: above 100 is an error, above 80 a warning, the rest a success. */
  function Classify(uc: real): (s: Status)
    ensures s == Error <==> uc > 100.0
    ensures s == Warning <==> 80.0 < uc <= 100.0
    ensures s == Success <==> uc <= 80.0
  {
    if uc > 100.0 then Error
    else if uc > 80.0 then Warning
    else Success
  }

  /** Exactly 100 % still passes with a warning; exactly 80 % is a success. */
  lemma ClassifyBoundaries()
    ensures Classify(100.0) == Warning && Classify(80.0) == Success
    ensures forall uc :: uc > 100.0 ==> Classify(uc) == Error
  {
  }

  /** What the evaluation derives from one case. */
  datatype CaseResult = CaseResult(mass: real, unityCheck: real, status: Status)

  /** Evaluates one case; fails only when the delegated mass calculation fails.
      The status compares the mass with the norm's maximum directly: above it is
      an error, above four fifths of it a warning. */
  function EvaluateCase(c: Case, strategy: Strategy): (r: Result<CaseResult>)
    ensures r.Ok? <==> ComputeMass(strategy, c.volume, c.density).Ok?
    ensures r.Err? ==> r.error == CalculationServiceError
    ensures r.Ok? ==> r.value.mass == ComputeMass(strategy, c.volume, c.density).value
    ensures r.Ok? ==> r.value.unityCheck * MaxMass(c.norm) == r.value.mass * 100.0
    ensures r.Ok? ==> (r.value.status == Error <==> r.value.mass > MaxMass(c.norm))
    ensures r.Ok? ==> (r.value.status == Warning <==>
                         MaxMass(c.norm) * 4.0 < r.value.mass * 5.0 && r.value.mass <= MaxMass(c.norm))
    ensures r.Ok? ==> (r.value.status == Success <==> r.value.mass * 5.0 <= MaxMass(c.norm) * 4.0)
  {
    var maxMass := MaxMass(c.norm);
    match ComputeMass(strategy, c.volume, c.density)
    case Ok(mass) =>
      var uc := UnityCheck(mass, maxMass);
      Ok(CaseResult(mass, uc, Classify(uc)))
    case Err(e) => Err(e)
  }

  /** Worked examples: 0.3 m3 at 1000 kg/m3 under norm A is 60 % and passes; 0.8 m3 is
      160 % and fails; 0.5 m3 at 900 kg/m3 under norm B is 60 % and passes. */
  lemma EvaluateCaseExamples()
    ensures EvaluateCase(Case(0.3, 1000.0, A), Local) == Ok(CaseResult(300.0, 60.0, Success))
    ensures EvaluateCase(Case(0.8, 1000.0, A), Local) == Ok(CaseResult(800.0, 160.0, Error))
    ensures EvaluateCase(Case(0.5, 900.0, B), Local) == Ok(CaseResult(450.0, 60.0, Success))
  {
  }

  /** A delegated sheet that multiplies gives exactly the local results. */
  lemma EvaluateCaseSubstitutable(c: Case, sheet: Sheet)
    requires MultipliesLikeLocal(sheet)
    ensures EvaluateCase(c, Delegated(sheet)) == EvaluateCase(c, Local)
  {
    DelegatedSubstitutable(sheet, c.volume, c.density);
  }
}
