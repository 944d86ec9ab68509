/** The two interchangeable ways of computing a case's mass. */
module Mass {
  import opened Errors

  /** An external spreadsheet calculation: it receives the named inputs
      `volume` and `density` and yields the named output `mass`, or nothing
      when the service or the sheet fails. */
  type Sheet = (real, real) -> Option<real>

  /** Chosen once per evaluation by the "spreadsheet" switch: `Local` multiplies
      in the application itself, `Delegated` asks the spreadsheet service. */
  datatype Strategy = Local | Delegated(sheet: Sheet)

  function StrategyFor(spreadsheet: bool, sheet: Sheet): (s: Strategy)
    ensures s.Delegated? <==> spreadsheet
    ensures s.Delegated? ==> s.sheet == sheet
  {
    if spreadsheet then Delegated(sheet) else Local
  }

  /** The mass of an object of the given volume and density. The local formula
      never fails; the delegated one fails exactly when the sheet does, and
      otherwise returns the sheet's answer unchanged. */
  function ComputeMass(strategy: Strategy, volume: real, density: real): (r: Result<real>)
    ensures strategy.Local? ==> r == Ok(volume * density)
    ensures strategy.Delegated? ==> (r.Ok? <==> strategy.sheet(volume, density).Some?)
    ensures strategy.Delegated? && r.Ok? ==> r.value == strategy.sheet(volume, density).value
    ensures r.Err? ==> r.error == CalculationServiceError
  {
    match strategy
    case Local => Ok(volume * density)
    case Delegated(sheet) =>
      match sheet(volume, density)
      case Some(mass) => Ok(mass)
      case None => Err(CalculationServiceError)
  }

  /** A sheet that computes `volume * density` can stand in for the local formula. */
  ghost predicate MultipliesLikeLocal(sheet: Sheet) {
    forall v: real, d: real :: sheet(v, d) == Some(v * d)
  }

  lemma DelegatedSubstitutable(sheet: Sheet, volume: real, density: real)
    requires MultipliesLikeLocal(sheet)
    ensures ComputeMass(Delegated(sheet), volume, density) == ComputeMass(Local, volume, density)
  {
  }
}
