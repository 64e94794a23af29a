/** The two alert rules of the backend. They share the temperature band
    (20..26 degrees) and differ in the humidity band: the public device
    endpoint uses 20..80 %, the authenticated relay endpoint and the seed
    script use 40..95 %. The two are kept apart on purpose. */
module Alert {
  import opened Common

  const TempHigh: real := 26.0
  const TempLow: real := 20.0

  /** Rule of POST /leitura. An absent humidity (`undefined`) makes both
      humidity comparisons false. */
  predicate LeituraAlert(temperatura: real, umidade: Option<real>)
  {
    temperatura > TempHigh || temperatura < TempLow
    || (umidade.Some? && (umidade.value > 80.0 || umidade.value < 20.0))
  }

  /** Rule of POST /alerta and of the seed script. */
  predicate RelayAlert(temperatura: real, umidade: real)
  {
    temperatura > TempHigh || temperatura < TempLow || umidade > 95.0 || umidade < 40.0
  }

  /** The seed script stores the relay rule as 1 or 0. */
  function RelayAlertFlag(temperatura: real, umidade: real): (f: int)
    ensures f == 0 || f == 1
    ensures f == 1 <==> RelayAlert(temperatura, umidade)
  {
    if RelayAlert(temperatura, umidade) then 1 else 0
  }

  /** The device rule is quiet exactly inside the closed box 20..26 x 20..80;
      without humidity, exactly inside the temperature band. */
  lemma LeituraQuietRegion(temperatura: real, umidade: Option<real>)
    ensures !LeituraAlert(temperatura, umidade) <==>
      (TempLow <= temperatura <= TempHigh
       && (umidade.None? || 20.0 <= umidade.value <= 80.0))
    ensures umidade.None? ==>
      (LeituraAlert(temperatura, umidade) <==> LeituraAlert(temperatura, Some(50.0)))
  {
  }

  /** The relay rule is quiet exactly inside the closed box 20..26 x 40..95. */
  lemma RelayQuietRegion(temperatura: real, umidade: real)
    ensures !RelayAlert(temperatura, umidade) <==>
      (TempLow <= temperatura <= TempHigh && 40.0 <= umidade <= 95.0)
  {
  }

  /** The two rules disagree exactly when the temperature is in band and the
      humidity lies in 20 <= u < 40 (only the relay rule fires) or in
      80 < u <= 95 (only the device rule fires). */
  lemma RulesDisagreeExactly(temperatura: real, umidade: real)
    ensures LeituraAlert(temperatura, Some(umidade)) != RelayAlert(temperatura, umidade) <==>
      (TempLow <= temperatura <= TempHigh
       && ((20.0 <= umidade < 40.0) || (80.0 < umidade <= 95.0)))
    ensures (LeituraAlert(temperatura, Some(umidade)) && !RelayAlert(temperatura, umidade))
      <==> (TempLow <= temperatura <= TempHigh && 80.0 < umidade <= 95.0)
  {
  }

  /** A concrete reading on which the two endpoints decide differently. */
  lemma RulesDisagreeOnExample()
    ensures LeituraAlert(23.0, Some(90.0)) && !RelayAlert(23.0, 90.0)
    ensures !LeituraAlert(23.0, Some(30.0)) && RelayAlert(23.0, 30.0)
  {
  }
}
